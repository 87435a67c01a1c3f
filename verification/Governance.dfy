/**
  The Goal of a root task and its current Todo: lifecycle commands, claim
  generations, turn admission and ownership handoffs
  (internal/application/governance.go, governance_handoff.go,
  governance_control_receipts.go, internal/persistence/sqlstore/governance.go).
  Each command is one store transaction: it commits whole or changes nothing.
 */
module Governance {
  import opened Wrappers
  import Text

  /** governancePlanClaimTTL, in seconds. */
  const CLAIM_TTL := 15 * 60

  datatype GoalStatus = GoalDraft | GoalActive | GoalWaiting | GoalBlocked | GoalCompleted | GoalCancelled

  datatype TodoStatus = TodoPending | TodoClaimed | TodoRunning | TodoWaiting | TodoBlocked | TodoCompleted
    | TodoCancelled

  datatype ItemStatus = ItemTodo | ItemInProgress | ItemBlocked | ItemCompleted | ItemCancelled

  /** Every running, queued or waiting Coordinator status is open. */
  datatype ControlStatus = ControlOpen | ControlBlocked | ControlCompleted | ControlCancelled

  datatype Refusal = StateConflict | IdempotencyConflict | Validation | NotFound | IllegalTransition | UnresolvedActor

  datatype Claim = Claim(owner: string, expires: int)

  /** A claim always carries the Todo's own generation, so the generation is kept once. */
  datatype Todo = Todo(status: TodoStatus, claim: Option<Claim>, generation: nat, lastTurn: nat, scope: set<string>)

  datatype DecisionKind = DecideExecute | DecideRepair | DecideReplan | DecideWait | DecideUserAction | DecideFinish

  /** What a control receipt is fingerprinted by. */
  datatype Intent = Intent(kind: DecisionKind, reason: string, next: string, source: string)

  /** The header of an admitted turn; a Plan's turn carries no control decision. */
  datatype Turn = Turn(number: nat, key: string, control: Option<Intent>)

  datatype HandoffStatus = HandoffPending | HandoffTransferred | HandoffRejected | HandoffCancelled

  datatype Handoff = Handoff(
    status: HandoffStatus, source: string, target: string, sourceGeneration: nat, targetGeneration: nat,
    clientKey: string, intent: string, acceptance: string, resolution: string)

  datatype Checkpoint = Checkpoint(handoff: nat, target: string, generation: nat, sourceRun: string, source: string)

  datatype Control = Control(status: ControlStatus, agent: string, run: string, checkpoint: Option<Checkpoint>)

  /** One governed root task. A handoff's id is its place in the list. */
  datatype Line = Line(
    goal: GoalStatus, todo: Option<Todo>, turns: seq<Turn>, handoffs: seq<Handoff>, control: Control,
    root: string, items: map<string, ItemStatus>)

  /** The protected facts of a Coordinator Run; a delegated one names its handoff. */
  datatype RunFacts = RunFacts(agent: string, delegated: Option<(nat, nat)>, terminal: bool)

  /** The enabled agent each actor resolves to; an actor that resolves to none is absent. */
  type Directory = map<string, string>

  // ----- status tables -----

  predicate GoalEnds(s: GoalStatus) { s == GoalCompleted || s == GoalCancelled }

  predicate TodoEnds(s: TodoStatus) { s == TodoCompleted || s == TodoCancelled }

  predicate ItemEnds(s: ItemStatus) { s == ItemCompleted || s == ItemCancelled }

  predicate ControlEnds(s: ControlStatus) { s == ControlCompleted || s == ControlCancelled }

  predicate GoalStep(a: GoalStatus, b: GoalStatus) {
    match a
    case GoalDraft => b in {GoalActive, GoalBlocked, GoalCancelled}
    case GoalActive => b in {GoalWaiting, GoalBlocked, GoalCompleted, GoalCancelled}
    case GoalWaiting => b in {GoalActive, GoalBlocked, GoalCompleted, GoalCancelled}
    case GoalBlocked => b in {GoalActive, GoalWaiting, GoalCancelled}
    case _ => false
  }

  predicate TodoStep(a: TodoStatus, b: TodoStatus) {
    match a
    case TodoPending => b in {TodoClaimed, TodoWaiting, TodoBlocked, TodoCancelled}
    case TodoClaimed => b in {TodoRunning, TodoPending, TodoWaiting, TodoBlocked, TodoCancelled}
    case TodoRunning => b in {TodoWaiting, TodoCompleted, TodoBlocked, TodoCancelled}
    case TodoWaiting => b in {TodoPending, TodoClaimed, TodoCompleted, TodoBlocked, TodoCancelled}
    case TodoBlocked => b in {TodoPending, TodoClaimed, TodoWaiting, TodoCancelled}
    case _ => false
  }

  predicate ItemStep(a: ItemStatus, b: ItemStatus) {
    match a
    case ItemTodo => b in {ItemInProgress, ItemBlocked, ItemCancelled}
    case ItemInProgress => b in {ItemBlocked, ItemCompleted, ItemCancelled}
    case ItemBlocked => b in {ItemInProgress, ItemCancelled}
    case _ => false
  }

  predicate Live(claim: Claim, now: int) { claim.expires > now }

  predicate Owned(t: Todo, owner: string) { t.claim.Some? && t.claim.value.owner == owner }

  // ----- one Todo row: what the store's guarded updates do -----

  function Transition(t: Todo, s: TodoStatus): Result<Todo, Refusal> {
    if TodoStep(t.status, s) && (s == TodoRunning ==> t.claim.Some?) then Success(t.(status := s))
    else Failure(IllegalTransition)
  }

  function ClaimRow(t: Todo, owner: string, now: int, expires: int): Result<Todo, Refusal> {
    if owner == "" || expires <= now then Failure(Validation)
    else if TodoEnds(t.status) || owner !in t.scope then Failure(StateConflict)
    else if t.claim.Some? && t.claim.value.owner != owner && Live(t.claim.value, now) then Failure(StateConflict)
    else if t.status == TodoRunning && !Owned(t, owner) then Failure(StateConflict)
    else
      Success(t.(status := if t.status == TodoRunning then TodoRunning else TodoClaimed,
                 claim := Some(Claim(owner, expires)), generation := t.generation + 1))
  }

  function ReleaseRow(t: Todo, owner: string): Result<Todo, Refusal> {
    if !Owned(t, owner) || t.status == TodoRunning then Failure(StateConflict)
    else
      Success(t.(status := if t.status == TodoClaimed then TodoPending else t.status,
                 claim := None, generation := t.generation + 1))
  }

  function RenewRow(t: Todo, owner: string, generation: nat, now: int, expires: int): Result<Todo, Refusal> {
    if owner == "" || generation < 1 || expires <= now then Failure(Validation)
    else if TodoEnds(t.status) || !Owned(t, owner) || t.generation != generation then Failure(StateConflict)
    else if expires <= t.claim.value.expires then Failure(Validation)
    else Success(t.(claim := Some(Claim(owner, expires))))
  }

  function TransferRow(t: Todo, source: string, target: string, generation: nat, now: int, expires: int)
    : Result<Todo, Refusal>
  {
    if source == "" || target == "" || source == target || generation < 1 || expires <= now then Failure(Validation)
    else if TodoEnds(t.status) || !Owned(t, source) || t.generation != generation || !Live(t.claim.value, now)
         || target !in t.scope then Failure(StateConflict)
    else Success(t.(claim := Some(Claim(target, expires)), generation := t.generation + 1))
  }

  function AdmitRow(t: Todo, owner: string, number: nat, now: int): Result<Todo, Refusal> {
    if t.status != TodoClaimed || !Owned(t, owner) || owner !in t.scope || !Live(t.claim.value, now)
       || number != t.lastTurn + 1 then Failure(StateConflict)
    else Success(t.(status := TodoRunning, lastTurn := number))
  }

  function CompleteRow(t: Todo): Result<Todo, Refusal> {
    if t.lastTurn < 1 || (t.status != TodoWaiting && t.status != TodoRunning) then Failure(StateConflict)
    else Success(t.(status := TodoCompleted, claim := None, generation := t.generation + 1))
  }

  /** Cancelling spends a generation only when there was a claim to clear. */
  function CancelRow(t: Todo): Todo {
    if TodoEnds(t.status) then t
    else t.(status := TodoCancelled, claim := None, generation := Cleared(t))
  }

  function Cleared(t: Todo): nat { t.generation + (if t.claim.Some? then 1 else 0) }

  // ----- what each command leaves behind -----

  function Started(l: Line, scope: set<string>): Result<Line, Refusal> {
    if l.goal != GoalDraft || l.todo.Some? then Failure(StateConflict)
    else Success(l.(goal := GoalActive, todo := Some(Todo(TodoPending, None, 0, 0, scope))))
  }

  function Paused(l: Line): Result<Line, Refusal> {
    if l.goal == GoalBlocked then Failure(StateConflict)
    else if l.goal != GoalActive then Failure(IllegalTransition)
    else if l.todo.None? || TodoEnds(l.todo.value.status) then Success(l.(goal := GoalWaiting))
    else Success(l.(goal := GoalWaiting, todo := Some(l.todo.value.(status := TodoWaiting))))
  }

  /** The newest accepted transfer, whether or not its claim is still the current one. */
  function Latest(handoffs: seq<Handoff>): Option<nat> {
    if handoffs == [] then None
    else
      var k := |handoffs| - 1;
      var earlier := Latest(handoffs[..k]);
      if handoffs[k].status == HandoffTransferred
         && (earlier.None? || handoffs[k].targetGeneration > TargetAt(handoffs[..k], earlier.value)) then Some(k)
      else earlier
  }

  function TargetAt(handoffs: seq<Handoff>, i: nat): nat {
    if i < |handoffs| then handoffs[i].targetGeneration else 0
  }

  predicate Resolvable(handoffs: seq<Handoff>, d: Directory) {
    forall i :: 0 <= i < |handoffs| && handoffs[i].status == HandoffTransferred ==> handoffs[i].target in d
  }

  /** Resuming a paused Todo gives it back to whoever may still act on it. */
  function ResumedTodo(t: Todo, handoffs: seq<Handoff>, now: int, d: Directory): Result<Todo, Refusal> {
    if t.status != TodoWaiting then Failure(StateConflict)
    else if !Resolvable(handoffs, d) then Failure(UnresolvedActor)
    else if Latest(handoffs).Some? && Latest(handoffs).value < |handoffs| then
      var h := handoffs[Latest(handoffs).value];
      if h.target !in d || !Owned(t, d[h.target]) || t.generation != h.targetGeneration then Failure(StateConflict)
      else if Live(t.claim.value, now) then Success(t.(status := TodoClaimed))
      else if d[h.target] == "" || t.generation < 1 then Failure(Validation)
      else Success(t.(status := TodoClaimed, claim := Some(Claim(d[h.target], now + CLAIM_TTL))))
    else if t.claim.None? then Success(t.(status := TodoPending))
    else if Live(t.claim.value, now) then Success(t.(status := TodoClaimed))
    else if t.lastTurn == 0 then Success(t.(status := TodoPending, claim := None, generation := t.generation + 1))
    else if t.claim.value.owner == "" then Failure(Validation)
    else if t.claim.value.owner !in t.scope then Failure(StateConflict)
    else
      Success(t.(status := TodoClaimed, claim := Some(Claim(t.claim.value.owner, now + CLAIM_TTL)),
                 generation := t.generation + 2))
  }

  function Resumed(l: Line, now: int, d: Directory): Result<Line, Refusal> {
    if l.goal == GoalBlocked then Failure(StateConflict)
    else if l.todo.Some? && !TodoEnds(l.todo.value.status) then
      match ResumedTodo(l.todo.value, l.handoffs, now, d)
      case Failure(e) => Failure(e)
      case Success(t) => ResumedGoal(l.(todo := Some(t)))
    else ResumedGoal(l)
  }

  function ResumedGoal(l: Line): Result<Line, Refusal> {
    if l.goal != GoalWaiting then Failure(IllegalTransition)
    else if l.control.status != ControlOpen then Failure(StateConflict)
    else Success(l.(goal := GoalActive))
  }

  function BlockedTodo(t: Todo): Todo {
    if TodoEnds(t.status) then t else t.(status := TodoBlocked, claim := None, generation := Cleared(t))
  }

  /** blockCurrentGovernanceLocked: nothing yet to block before the start, nothing left after the end. */
  function BlockedGovernance(l: Line): Line {
    if l.goal == GoalDraft || GoalEnds(l.goal) then l
    else l.(goal := GoalBlocked, todo := if l.todo.None? then None else Some(BlockedTodo(l.todo.value)))
  }

  function BlockedControl(c: Control): Control {
    c.(status := ControlBlocked, run := if c.status == ControlBlocked then c.run else "", checkpoint := None)
  }

  function ItemSet(l: Line, id: string, s: ItemStatus): Line {
    l.(items := l.items[id := s])
  }

  /** A failure the Coordinator cannot recover from stops the whole root. */
  function BlockedByCoordinator(l: Line): Line {
    if ControlEnds(l.control.status) then l
    else
      var m := BlockedGovernance(l.(control := BlockedControl(l.control)));
      if l.root in l.items && ItemStep(l.items[l.root], ItemBlocked) then ItemSet(m, l.root, ItemBlocked) else m
  }

  /** A user blocks one task of the tree. */
  function BlockedByUser(l: Line, id: string): Result<Line, Refusal> {
    if id !in l.items then Failure(NotFound)
    else if !ItemStep(l.items[id], ItemBlocked) then Failure(IllegalTransition)
    else if !ControlEnds(l.control.status) then
      Success(BlockedGovernance(ItemSet(l, id, ItemBlocked).(control := BlockedControl(l.control))))
    else if id == l.root then Success(BlockedGovernance(ItemSet(l, id, ItemBlocked)))
    else Success(ItemSet(l, id, ItemBlocked))
  }

  function UnblockedTodo(t: Todo, goal: GoalStatus): Todo {
    if TodoEnds(t.status) || (goal != GoalBlocked && t.status != TodoBlocked) then t
    else t.(status := TodoPending, claim := None, generation := Cleared(t))
  }

  function UnblockedGovernance(l: Line): Line {
    if l.goal == GoalDraft || GoalEnds(l.goal) then l
    else l.(goal := if l.goal == GoalBlocked then GoalActive else l.goal,
            todo := if l.todo.None? then None else Some(UnblockedTodo(l.todo.value, l.goal)))
  }

  function UnblockedByUser(l: Line, id: string): Result<Line, Refusal> {
    if id !in l.items then Failure(NotFound)
    else if !ItemStep(l.items[id], ItemInProgress) then Failure(IllegalTransition)
    else
      var m := UnblockedGovernance(ItemSet(l, id, ItemInProgress));
      if m.control.status == ControlBlocked then Success(m.(control := m.control.(status := ControlOpen, run := "")))
      else Success(m)
  }

  function ClaimedBy(l: Line, owner: string, now: int, expires: int): Result<Line, Refusal> {
    if l.todo.None? then Failure(NotFound)
    else if l.goal != GoalActive then Failure(StateConflict)
    else Put(l, ClaimRow(l.todo.value, owner, now, expires))
  }

  function ReleasedBy(l: Line, owner: string): Result<Line, Refusal> {
    if l.todo.None? then Failure(NotFound)
    else if GoalEnds(l.goal) then Failure(StateConflict)
    else Put(l, ReleaseRow(l.todo.value, owner))
  }

  function RenewedBy(l: Line, owner: string, generation: nat, now: int, expires: int): Result<Line, Refusal> {
    if l.todo.None? then Failure(NotFound) else Put(l, RenewRow(l.todo.value, owner, generation, now, expires))
  }

  function Put(l: Line, r: Result<Todo, Refusal>): Result<Line, Refusal> {
    match r
    case Failure(e) => Failure(e)
    case Success(t) => Success(l.(todo := Some(t)))
  }

  // ----- turns -----

  predicate Keyed(turns: seq<Turn>, key: string) {
    exists i :: 0 <= i < |turns| && turns[i].key == key
  }

  /** The store's Admit: a known admission key is a replay, anything else takes the next number. */
  function Admitted(l: Line, owner: string, number: nat, key: string, now: int): Result<Line, Refusal> {
    if l.todo.None? then Failure(NotFound)
    else if Keyed(l.turns, key) then Success(l)
    else if l.goal != GoalActive then Failure(StateConflict)
    else
      match AdmitRow(l.todo.value, owner, number, now)
      case Failure(e) => Failure(e)
      case Success(t) => Success(l.(todo := Some(t), turns := l.turns + [Turn(number, key, None)]))
  }

  /** Settling a turn acts on the Todo only while that turn is its latest. */
  function Settled(l: Line, number: nat, s: TodoStatus): Result<Line, Refusal> {
    if l.todo.None? then Failure(NotFound)
    else if l.todo.value.lastTurn < number then Failure(StateConflict)
    else if l.todo.value.lastTurn > number || l.todo.value.status == s then Success(l)
    else if l.todo.value.status != TodoRunning then Failure(StateConflict)
    else Put(l, Transition(l.todo.value, s))
  }

  /** A replayed turn that was paused after its admission runs again under its own number. */
  function Rerun(l: Line, owner: string, number: nat, now: int): Result<Line, Refusal> {
    if l.todo.None? then Failure(NotFound)
    else
      var t := l.todo.value;
      if owner == "" || number < 1 then Failure(Validation)
      else if t.status != TodoClaimed || !Owned(t, owner) || t.lastTurn != number || !Live(t.claim.value, now)
           || owner !in t.scope then Failure(StateConflict)
      else Success(l.(todo := Some(t.(status := TodoRunning))))
  }

  /** The claim a control decision is admitted under. */
  function ControlClaim(t: Todo, owner: string, now: int): Result<Todo, Refusal> {
    if t.status == TodoRunning || TodoEnds(t.status) then Failure(StateConflict)
    else if t.claim.None? && t.status == TodoClaimed then Failure(StateConflict)
    else if t.claim.None? then ClaimRow(t, owner, now, now + CLAIM_TTL)
    else if !Owned(t, owner) then Failure(StateConflict)
    else if Live(t.claim.value, now) then Success(t.(status := TodoClaimed))
    else
      match RenewRow(t, owner, t.generation, now, now + CLAIM_TTL)
      case Failure(e) => Failure(e)
      case Success(renewed) => Success(renewed.(status := TodoClaimed))
  }

  /** A repeated decision may leave its source Run to the stored one. */
  predicate Repeats(intent: Intent, stored: Intent) {
    && intent.kind == stored.kind && intent.reason == stored.reason && intent.next == stored.next
    && (intent.source == "" || intent.source == stored.source)
  }

  predicate SameDecision(turns: seq<Turn>, key: string, intent: Intent) {
    exists i :: 0 <= i < |turns| && turns[i].key == key && turns[i].control.Some?
      && Repeats(intent, turns[i].control.value)
  }

  /** closeControlReceiptTodo, from the state an open control turn leaves the Todo in. */
  function ClosedControl(t: Todo, keepClaim: bool): Todo {
    if keepClaim then t.(status := TodoClaimed)
    else t.(status := TodoPending, claim := None, generation := t.generation + 1)
  }

  /** A replayed receipt closes the Todo as it now stands, whichever turn is open on it. */
  function ReplayedControl(t: Todo, keepClaim: bool): Result<Todo, Refusal> {
    if t.status == TodoPending then Success(t)
    else if t.status != TodoRunning || t.claim.None? then Failure(StateConflict)
    else Success(ClosedControl(t, keepClaim))
  }

  predicate Blank(s: string) { Text.AllSpace(s) }

  /** A first receipt opens and closes its own turn, and gives the claim back unless told to keep it. */
  function FreshControl(l: Line, owner: string, key: string, intent: Intent, keepClaim: bool, now: int)
    : Result<Line, Refusal>
    requires l.todo.Some?
  {
    match ControlClaim(l.todo.value, owner, now)
    case Failure(e) => Failure(e)
    case Success(t) =>
      if owner !in t.scope then Failure(StateConflict)
      else
        var number := t.lastTurn + 1;
        Success(l.(todo := Some(ClosedControl(t.(lastTurn := number), keepClaim)),
                   turns := l.turns + [Turn(number, key, Some(intent))]))
  }

  function ControlDecided(l: Line, owner: string, key: string, intent: Intent, keepClaim: bool, now: int)
    : Result<Line, Refusal>
  {
    if l.todo.None? || l.goal != GoalActive then Failure(StateConflict)
    else if intent.kind == DecideExecute || Blank(owner) || Blank(key) || Blank(intent.reason)
      || Blank(intent.next) then
      Failure(Validation)
    else if Keyed(l.turns, key) then
      if SameDecision(l.turns, key, intent) then Put(l, ReplayedControl(l.todo.value, keepClaim))
      else Failure(IdempotencyConflict)
    else FreshControl(l, owner, key, intent, keepClaim, now)
  }

  // ----- handoffs -----

  function FindKey(handoffs: seq<Handoff>, key: string): Option<nat> {
    if handoffs == [] then None
    else if handoffs[|handoffs| - 1].clientKey == key then Some(|handoffs| - 1)
    else FindKey(handoffs[..|handoffs| - 1], key)
  }

  /** A repeated client key returns the first request if the intent is the same. */
  function CreatedHandoff(l: Line, h: Handoff, now: int, d: Directory): Result<Line, Refusal> {
    if l.todo.None? then Failure(NotFound)
    else if h.clientKey != "" && FindKey(l.handoffs, h.clientKey).Some? then
      var i := FindKey(l.handoffs, h.clientKey).value;
      if i < |l.handoffs| && SameIntent(l.handoffs[i], h) then Success(l) else Failure(IdempotencyConflict)
    else
      var t := l.todo.value;
      if GoalEnds(l.goal) || TodoEnds(t.status) || t.claim.None? || !Live(t.claim.value, now) then
        Failure(StateConflict)
      else if h.source !in d || h.target !in d then Failure(UnresolvedActor)
      else if d[h.source] == d[h.target] || !Owned(t, d[h.source]) || d[h.target] !in t.scope then
        Failure(StateConflict)
      else
        Success(l.(handoffs := l.handoffs + [
          Handoff(HandoffPending, h.source, h.target, t.generation, 0, h.clientKey, h.intent, "", "")]))
  }

  predicate SameIntent(a: Handoff, b: Handoff) {
    a.source == b.source && a.target == b.target && a.intent == b.intent && a.clientKey == b.clientKey
  }

  /** The Run whose context a continuation may clone: only the source's own current Run. */
  function SourceRun(c: Control, source: string, runs: map<string, RunFacts>): Result<string, Refusal> {
    if c.run == "" then Success("")
    else if c.run !in runs then Failure(NotFound)
    else if runs[c.run].agent != source then Failure(StateConflict)
    else if source == c.agent then
      if runs[c.run].delegated.None? then Success(c.run) else Failure(StateConflict)
    else if c.checkpoint.Some? && c.checkpoint.value.target == source
            && runs[c.run].delegated == Some((c.checkpoint.value.handoff, c.checkpoint.value.generation))
    then Success(c.run)
    else Failure(StateConflict)
  }

  /** An earlier continuation may only be superseded by a handoff from its own target. */
  predicate MaySupersede(l: Line, id: nat, source: string, d: Directory)
    requires id < |l.handoffs|
  {
    l.control.checkpoint.Some? && l.control.checkpoint.value.handoff != id ==>
      var p := l.control.checkpoint.value;
      && p.handoff < |l.handoffs|
      && l.handoffs[p.handoff].status == HandoffTransferred
      && l.handoffs[p.handoff].target in d && d[l.handoffs[p.handoff].target] == source
      && l.handoffs[p.handoff].targetGeneration == l.handoffs[id].sourceGeneration
      && p.generation == l.handoffs[id].sourceGeneration
  }

  /** queueHandoffContinuationLocked: the checkpoint the target's turn will start from. */
  function Queued(l: Line, id: nat, source: string, target: string, d: Directory, runs: map<string, RunFacts>)
    : Result<Control, Refusal>
    requires id < |l.handoffs|
  {
    var c := l.control;
    if ControlEnds(c.status) then Failure(StateConflict)
    else if !MaySupersede(l, id, source, d) then Failure(IdempotencyConflict)
    else
      match SourceRun(c, source, runs)
      case Failure(e) => Failure(e)
      case Success(run) =>
        var p := Checkpoint(id, target, l.handoffs[id].targetGeneration, run, source);
        if c.run == "" || (c.run in runs && runs[c.run].terminal) then
          Success(c.(status := ControlOpen, run := "", checkpoint := Some(p)))
        else Success(c.(checkpoint := Some(p)))
  }

  function AcceptedHandoff(l: Line, id: nat, target: string, text: string, now: int, d: Directory,
                           runs: map<string, RunFacts>): Result<Line, Refusal>
  {
    if id >= |l.handoffs| then Failure(NotFound)
    else
      var h := l.handoffs[id];
      if h.status == HandoffTransferred then
        if h.target == target && h.acceptance == text then Success(l) else Failure(IdempotencyConflict)
      else if h.status != HandoffPending then Failure(StateConflict)
      else if l.todo.None? || l.todo.value.claim.None? || l.todo.value.generation != h.sourceGeneration
           || !Live(l.todo.value.claim.value, now) then Failure(StateConflict)
      else if h.source !in d || target !in d then Failure(UnresolvedActor)
      else if target != h.target || !Owned(l.todo.value, d[h.source]) || d[target] !in l.todo.value.scope then
        Failure(StateConflict)
      else
        match TransferRow(l.todo.value, d[h.source], d[target], h.sourceGeneration, now, now + CLAIM_TTL)
        case Failure(e) => Failure(e)
        case Success(t) =>
          if text == "" then Failure(Validation)
          else
            var accepted := h.(status := HandoffTransferred, acceptance := text, targetGeneration := t.generation);
            var m := l.(todo := Some(t), handoffs := l.handoffs[id := accepted]);
            match Queued(m, id, d[h.source], d[target], d, runs)
            case Failure(e) => Failure(e)
            case Success(c) => Success(m.(control := c))
  }

  function ClosedHandoff(l: Line, id: nat, cancel: bool, reason: string): Result<Line, Refusal> {
    if id >= |l.handoffs| then Failure(NotFound)
    else
      var h := l.handoffs[id];
      var closed := if cancel then HandoffCancelled else HandoffRejected;
      var why := if cancel then "" else reason;
      if h.status == closed then
        if h.resolution == why then Success(l) else Failure(IdempotencyConflict)
      else if h.status != HandoffPending then Failure(StateConflict)
      else if !cancel && why == "" then Failure(Validation)
      else Success(l.(handoffs := l.handoffs[id := h.(status := closed, resolution := why)]))
  }

  /** Accepted transfers whose claim is the Todo's current one. */
  predicate ActiveAt(l: Line, i: nat, d: Directory) {
    && i < |l.handoffs| && l.todo.Some?
    && l.handoffs[i].status == HandoffTransferred
    && l.todo.value.generation == l.handoffs[i].targetGeneration
    && l.todo.value.generation >= 1
    && l.handoffs[i].target in d && Owned(l.todo.value, d[l.handoffs[i].target])
    && d[l.handoffs[i].target] in l.todo.value.scope
  }

  /** The handoff a Coordinator turn would be started for. */
  ghost predicate Controls(l: Line, i: nat, d: Directory) {
    && i < |l.handoffs| && l.todo.Some?
    && l.handoffs[i].status == HandoffTransferred
    && l.todo.value.generation == l.handoffs[i].targetGeneration
    && l.handoffs[i].target in d && Owned(l.todo.value, d[l.handoffs[i].target])
    && if l.control.checkpoint.Some? then l.control.checkpoint.value.handoff == i else ActiveAt(l, i, d)
  }

  // ----- the end of a line -----

  function CancelledHandoff(h: Handoff): Handoff {
    if h.status == HandoffPending then h.(status := HandoffCancelled) else h
  }

  function CancelledItem(s: ItemStatus): ItemStatus {
    if ItemEnds(s) then s else ItemCancelled
  }

  function CancelledLine(l: Line): Result<Line, Refusal> {
    if GoalEnds(l.goal) then Failure(IllegalTransition)
    else if ControlEnds(l.control.status) then Failure(StateConflict)
    else
      Success(l.(goal := GoalCancelled,
                 todo := if l.todo.None? then None else Some(CancelRow(l.todo.value)),
                 control := l.control.(status := ControlCancelled, run := ""),
                 handoffs := seq(|l.handoffs|, i requires 0 <= i < |l.handoffs| => CancelledHandoff(l.handoffs[i])),
                 items := map id | id in l.items :: CancelledItem(l.items[id])))
  }

  /** Acceptance of the root task completes it, its Todo, its Coordinator and its Goal together. */
  function AcceptedLine(l: Line): Result<Line, Refusal> {
    if l.root !in l.items then Failure(NotFound)
    else if !ItemStep(l.items[l.root], ItemCompleted) then Failure(IllegalTransition)
    else if l.todo.None? then Failure(NotFound)
    else if !GoalStep(l.goal, GoalCompleted) then Failure(IllegalTransition)
    else if ControlEnds(l.control.status) then Failure(StateConflict)
    else
      match CompleteRow(l.todo.value)
      case Failure(e) => Failure(e)
      case Success(t) =>
        Success(ItemSet(l, l.root, ItemCompleted).(goal := GoalCompleted, todo := Some(t),
                control := l.control.(status := ControlCompleted, run := "")))
  }

  // ----- runs of commands -----

  datatype Command =
    | Start(agents: set<string>)
    | Pause
    | Resume(now: int, directory: Directory)
    | BlockControl
    | BlockItem(item: string)
    | UnblockItem(item: string)
    | ClaimTodo(owner: string, now: int, expires: int)
    | ReleaseTodo(owner: string)
    | RenewClaim(owner: string, generation: nat, now: int, expires: int)
    | AdmitPlan(owner: string, number: nat, key: string, now: int)
    | SettleTurn(number: nat, status: TodoStatus)
    | RerunTurn(owner: string, number: nat, now: int)
    | ControlDecision(owner: string, key: string, intent: Intent, keepClaim: bool, now: int)
    | CreateHandoff(request: Handoff, now: int, directory: Directory)
    | AcceptHandoff(id: nat, target: string, text: string, now: int, directory: Directory, runs: map<string, RunFacts>)
    | CloseHandoff(id: nat, cancel: bool, reason: string)
    | CurrentRun(run: string)
    | AcceptRoot
    | CancelGoal

  /** The outcome of one transaction. CurrentRun stands for the Coordinator starting or ending a Run. */
  function Attempt(l: Line, c: Command): Result<Line, Refusal> {
    match c
    case Start(agents) => Started(l, agents)
    case Pause => Paused(l)
    case Resume(now, d) => Resumed(l, now, d)
    case BlockControl => Success(BlockedByCoordinator(l))
    case BlockItem(id) => BlockedByUser(l, id)
    case UnblockItem(id) => UnblockedByUser(l, id)
    case ClaimTodo(owner, now, expires) => ClaimedBy(l, owner, now, expires)
    case ReleaseTodo(owner) => ReleasedBy(l, owner)
    case RenewClaim(owner, generation, now, expires) => RenewedBy(l, owner, generation, now, expires)
    case AdmitPlan(owner, number, key, now) => Admitted(l, owner, number, key, now)
    case SettleTurn(number, s) => if s in {TodoWaiting, TodoBlocked} then Settled(l, number, s) else Failure(Validation)
    case RerunTurn(owner, number, now) => Rerun(l, owner, number, now)
    case ControlDecision(owner, key, intent, keep, now) => ControlDecided(l, owner, key, intent, keep, now)
    case CreateHandoff(h, now, d) => CreatedHandoff(l, h, now, d)
    case AcceptHandoff(id, target, text, now, d, runs) => AcceptedHandoff(l, id, target, text, now, d, runs)
    case CloseHandoff(id, cancel, reason) => ClosedHandoff(l, id, cancel, reason)
    case CurrentRun(run) =>
      if l.control.status == ControlOpen then Success(l.(control := l.control.(run := run)))
      else Failure(StateConflict)
    case AcceptRoot => AcceptedLine(l)
    case CancelGoal => CancelledLine(l)
  }

  /** A refused transaction rolls back. */
  function Next(l: Line, c: Command): Line {
    match Attempt(l, c)
    case Success(m) => m
    case Failure(_) => l
  }

  function Play(l: Line, commands: seq<Command>): Line
    decreases |commands|
  {
    if commands == [] then l else Play(Next(l, commands[0]), commands[1..])
  }
}
