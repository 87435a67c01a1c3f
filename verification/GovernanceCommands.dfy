/**
  The governance commands as the service carries them out: row by row inside
  one transaction, committing only at the end
  (internal/application/governance.go, governance_handoff.go,
  governance_control_receipts.go, governance_plan_execution.go).
 */
module GovernanceCommands {
  import opened Wrappers
  import opened Governance
  import opened GovernanceRuns

  /** A transaction either commits what the command promises or leaves everything as it was. */
  predicate Transacted(was: Line, attempt: Result<Line, Refusal>, now: Line, refused: Option<Refusal>) {
    match attempt
    case Success(m) => refused.None? && now == m
    case Failure(e) => refused == Some(e) && now == was
  }

  class GovernedLine {
    var goal: GoalStatus
    var todo: Option<Todo>
    var turns: seq<Turn>
    var handoffs: seq<Handoff>
    var control: Control
    var items: map<string, ItemStatus>
    const root: string

    constructor (root: string, agent: string)
      ensures Initial(State()) && State().root == root && State().control.agent == agent
    {
      goal, todo, turns, handoffs := GoalDraft, None, [], [];
      control := Control(ControlOpen, agent, "", None);
      items := map[root := ItemTodo];
      this.root := root;
    }

    ghost function State(): Line
      reads this
    {
      Line(goal, todo, turns, handoffs, control, root, items)
    }

    method StartGoal(agents: set<string>) returns (refused: Option<Refusal>)
      modifies this
      ensures Transacted(old(State()), Attempt(old(State()), Start(agents)), State(), refused)
    {
      if goal != GoalDraft || todo.Some? { return Some(StateConflict); }
      todo := Some(Todo(TodoPending, None, 0, 0, agents));
      goal := GoalActive;
      refused := None;
    }

    method PauseGoal() returns (refused: Option<Refusal>)
      modifies this
      ensures Transacted(old(State()), Attempt(old(State()), Pause), State(), refused)
    {
      if goal == GoalBlocked { return Some(StateConflict); }
      var paused := todo;
      if todo.Some? && !TodoEnds(todo.value.status) && todo.value.status != TodoWaiting {
        paused := Some(Transition(todo.value, TodoWaiting).value);
      }
      if !GoalStep(goal, GoalWaiting) { return Some(IllegalTransition); }
      todo, goal := paused, GoalWaiting;
      refused := None;
    }

    /** Every accepted transfer is resolved, even those that lose to a newer one. */
    method LatestTransferredHandoff(d: Directory) returns (r: Result<Option<nat>, Refusal>)
      ensures r == if Resolvable(handoffs, d) then Success(Latest(handoffs)) else Failure(UnresolvedActor)
    {
      var latest: Option<nat> := None;
      var i := 0;
      while i < |handoffs|
        invariant 0 <= i <= |handoffs|
        invariant latest == Latest(handoffs[..i])
        invariant latest.Some? ==> latest.value < i
        invariant Resolvable(handoffs[..i], d)
      {
        var h := handoffs[i];
        assert handoffs[..i + 1][..i] == handoffs[..i];
        if h.status == HandoffTransferred {
          if h.target !in d {
            assert !Resolvable(handoffs, d);
            return Failure(UnresolvedActor);
          }
          if latest.None? || h.targetGeneration > handoffs[latest.value].targetGeneration {
            latest := Some(i);
          }
        }
        i := i + 1;
      }
      assert handoffs[..i] == handoffs;
      return Success(latest);
    }

    /** The resume branch of transitionCurrentTodo, on a Todo that has not ended. */
    method ResumeCurrentTodo(now: int, d: Directory) returns (r: Result<Todo, Refusal>)
      requires todo.Some?
      ensures r == ResumedTodo(todo.value, handoffs, now, d)
    {
      LatestIsNewest(handoffs);
      var t := todo.value;
      if t.status != TodoWaiting { return Failure(StateConflict); }
      var latest := LatestTransferredHandoff(d);
      if latest.Failure? { return Failure(latest.error); }
      if latest.value.Some? {
        var h := handoffs[latest.value.value];
        var target := d[h.target];
        if !Owned(t, target) || t.generation != h.targetGeneration { return Failure(StateConflict); }
        if !Live(t.claim.value, now) {
          var renewed := RenewRow(t, target, h.targetGeneration, now, now + CLAIM_TTL);
          if renewed.Failure? { return renewed; }
          t := renewed.value;
        }
        return Transition(t, TodoClaimed);
      }
      if t.claim.Some? && Live(t.claim.value, now) { return Transition(t, TodoClaimed); }
      if t.claim.Some? {
        var expired := t.claim.value.owner;
        var released := ReleaseRow(t, expired);
        if released.Failure? { return released; }
        t := released.value;
        if t.lastTurn > 0 { return ClaimRow(t, expired, now, now + CLAIM_TTL); }
      }
      return Transition(t, TodoPending);
    }

    method ResumeGoal(now: int, d: Directory) returns (refused: Option<Refusal>)
      modifies this
      ensures Transacted(old(State()), Attempt(old(State()), Resume(now, d)), State(), refused)
    {
      if goal == GoalBlocked { return Some(StateConflict); }
      var resumed := todo;
      if todo.Some? && !TodoEnds(todo.value.status) {
        var r := ResumeCurrentTodo(now, d);
        if r.Failure? { return Some(r.error); }
        resumed := Some(r.value);
      }
      hide Latest, Resolvable, ResumedTodo;
      if !GoalStep(goal, GoalActive) || goal == GoalDraft { return Some(IllegalTransition); }
      if control.status != ControlOpen { return Some(StateConflict); }
      todo, goal := resumed, GoalActive;
      refused := None;
    }

    /** blockCurrentGovernanceLocked */
    method BlockCurrentGovernance()
      requires todo.Some? ==> TodoOk(todo.value)
      modifies this`goal, this`todo
      ensures State() == BlockedGovernance(old(State()))
    {
      if GoalEnds(goal) || goal == GoalDraft { return; }
      if todo.Some? && !TodoEnds(todo.value.status) {
        var t := todo.value;
        if t.status != TodoBlocked { t := Transition(t, TodoBlocked).value; }
        if t.claim.Some? { t := ReleaseRow(t, t.claim.value.owner).value; }
        todo := Some(t);
      }
      if goal != GoalBlocked { goal := GoalBlocked; }
    }

    /** resumeCurrentGovernanceLocked */
    method ResumeCurrentGovernance()
      requires todo.Some? ==> TodoOk(todo.value)
      modifies this`goal, this`todo
      ensures State() == UnblockedGovernance(old(State()))
    {
      if GoalEnds(goal) || goal == GoalDraft { return; }
      if todo.Some? && !TodoEnds(todo.value.status) && (goal == GoalBlocked || todo.value.status == TodoBlocked) {
        var t := todo.value;
        if t.status == TodoRunning { t := Transition(t, TodoBlocked).value; }
        if t.claim.Some? { t := ReleaseRow(t, t.claim.value.owner).value; }
        if t.status != TodoPending { t := Transition(t, TodoPending).value; }
        todo := Some(t);
      }
      if goal == GoalBlocked { goal := GoalActive; }
    }

    /** The blocked Coordinator gives up its current Run and any delegated continuation. */
    method MarkControlBlocked()
      modifies this`control
      ensures control == BlockedControl(old(control))
    {
      control := control.(checkpoint := None);
      if control.status != ControlBlocked {
        control := control.(status := ControlBlocked, run := "");
      }
    }

    method BlockCoordinator()
      requires todo.Some? ==> TodoOk(todo.value)
      modifies this
      ensures State() == BlockedByCoordinator(old(State()))
    {
      if ControlEnds(control.status) { return; }
      MarkControlBlocked();
      if root in items && ItemStep(items[root], ItemBlocked) { items := items[root := ItemBlocked]; }
      BlockCurrentGovernance();
    }

    method BlockWorkItem(id: string) returns (refused: Option<Refusal>)
      requires todo.Some? ==> TodoOk(todo.value)
      modifies this
      ensures Transacted(old(State()), Attempt(old(State()), BlockItem(id)), State(), refused)
    {
      if id !in items { return Some(NotFound); }
      if !ItemStep(items[id], ItemBlocked) { return Some(IllegalTransition); }
      items := items[id := ItemBlocked];
      if !ControlEnds(control.status) {
        MarkControlBlocked();
        BlockCurrentGovernance();
      }
      if id == root && ControlEnds(control.status) { BlockCurrentGovernance(); }
      refused := None;
    }

    method UnblockWorkItem(id: string) returns (refused: Option<Refusal>)
      requires todo.Some? ==> TodoOk(todo.value)
      modifies this
      ensures Transacted(old(State()), Attempt(old(State()), UnblockItem(id)), State(), refused)
    {
      if id !in items { return Some(NotFound); }
      if !ItemStep(items[id], ItemInProgress) { return Some(IllegalTransition); }
      items := items[id := ItemInProgress];
      ResumeCurrentGovernance();
      if control.status == ControlBlocked { control := control.(status := ControlOpen, run := ""); }
      refused := None;
    }

    /** transitionGovernanceTodoTurn: settling a turn that is no longer the latest changes nothing. */
    method TransitionGovernanceTodoTurn(number: nat, s: TodoStatus) returns (refused: Option<Refusal>)
      requires s in {TodoWaiting, TodoBlocked}
      modifies this
      ensures Transacted(old(State()), Attempt(old(State()), SettleTurn(number, s)), State(), refused)
    {
      if todo.None? { return Some(NotFound); }
      if todo.value.lastTurn < number { return Some(StateConflict); }
      if todo.value.lastTurn > number || todo.value.status == s { return None; }
      if todo.value.status != TodoRunning { return Some(StateConflict); }
      var moved := Transition(todo.value, s);
      if moved.Failure? { return Some(moved.error); }
      todo := Some(moved.value);
      refused := None;
    }

    /** GetHeaderByClientKey and the comparison of the replayed intent with the admitted header. */
    method FindDecision(key: string, intent: Intent) returns (known: bool, same: bool)
      requires forall i, j :: 0 <= i < j < |turns| ==> turns[i].key != turns[j].key
      ensures known == Keyed(turns, key) && same == SameDecision(turns, key, intent)
    {
      for i := 0 to |turns|
        invariant forall j :: 0 <= j < i ==> turns[j].key != key
      {
        if turns[i].key == key {
          return true, turns[i].control.Some? && Repeats(intent, turns[i].control.value);
        }
      }
      return false, false;
    }

    /** The Todo's part of replayGovernanceControlReceiptLocked. */
    method ReplayGovernanceControlReceipt(keepClaim: bool) returns (refused: Option<Refusal>)
      requires todo.Some?
      modifies this`todo
      ensures Transacted(old(State()), Put(old(State()), ReplayedControl(old(todo).value, keepClaim)), State(), refused)
    {
      if todo.value.status == TodoPending { return None; }
      if todo.value.status != TodoRunning || todo.value.claim.None? { return Some(StateConflict); }
      var closed := CloseControlReceiptTodo(todo.value, keepClaim);
      todo := Some(closed);
      return None;
    }

    /** admitGovernanceControlDecisionLocked, without its quota and phase records. */
    method AdmitGovernanceControlDecision(owner: string, key: string, intent: Intent, keepClaim: bool, now: int)
      returns (refused: Option<Refusal>)
      requires TurnsOk(State()) && (todo.Some? ==> TodoOk(todo.value))
      modifies this
      ensures Transacted(old(State()), Attempt(old(State()), ControlDecision(owner, key, intent, keepClaim, now)),
                         State(), refused)
    {
      if todo.None? || goal != GoalActive { return Some(StateConflict); }
      if intent.kind == DecideExecute { return Some(Validation); }
      if Blank(owner) || Blank(key) || Blank(intent.reason) || Blank(intent.next) { return Some(Validation); }
      assert owner != "";
      hide Blank, Keyed, SameDecision, Repeats, ReplayedControl, FreshControl;
      var known, same := FindDecision(key, intent);
      if !known {
        refused := AdmitFreshControl(owner, key, intent, keepClaim, now);
      } else if same {
        refused := ReplayGovernanceControlReceipt(keepClaim);
      } else {
        refused := Some(IdempotencyConflict);
      }
    }

    method AdmitFreshControl(owner: string, key: string, intent: Intent, keepClaim: bool, now: int)
      returns (refused: Option<Refusal>)
      requires todo.Some? && TodoOk(todo.value) && owner != ""
      modifies this`todo, this`turns
      ensures Transacted(old(State()), FreshControl(old(State()), owner, key, intent, keepClaim, now), State(), refused)
    {
      var claimed := ClaimForControl(todo.value, owner, now);
      if claimed.Failure? { return Some(claimed.error); }
      var t := claimed.value;
      t := CloseControlReceiptTodo(AdmitRow(t, owner, t.lastTurn + 1, now).value, keepClaim);
      turns := turns + [Turn(t.lastTurn, key, Some(intent))];
      todo := Some(t);
      refused := None;
    }

    method ClaimForControl(given: Todo, owner: string, now: int) returns (r: Result<Todo, Refusal>)
      requires TodoOk(given)
      ensures r == ControlClaim(given, owner, now)
      ensures r.Success? ==> TodoOk(r.value) && r.value.status == TodoClaimed && Owned(r.value, owner)
                             && Live(r.value.claim.value, now) && r.value.lastTurn == given.lastTurn
    {
      var t := given;
      match given.status {
        case TodoPending | TodoWaiting | TodoBlocked =>
          if t.claim.None? { return ClaimRow(t, owner, now, now + CLAIM_TTL); }
          if !Owned(t, owner) { return Failure(StateConflict); }
          if !Live(t.claim.value, now) {
            var renewed := RenewRow(t, owner, t.generation, now, now + CLAIM_TTL);
            if renewed.Failure? { return renewed; }
            t := renewed.value;
          }
          return Transition(t, TodoClaimed);
        case TodoClaimed =>
          if !Owned(t, owner) { return Failure(StateConflict); }
          if !Live(t.claim.value, now) { return RenewRow(t, owner, t.generation, now, now + CLAIM_TTL); }
          return Success(t);
        case _ =>
          return Failure(StateConflict);
      }
    }

    method CloseControlReceiptTodo(running: Todo, keepClaim: bool) returns (t: Todo)
      requires running.status == TodoRunning && running.claim.Some?
      ensures t == ClosedControl(running, keepClaim)
    {
      t := Transition(running, TodoWaiting).value;
      if keepClaim {
        t := Transition(t, TodoClaimed).value;
      } else {
        t := ReleaseRow(t, t.claim.value.owner).value;
        if t.status == TodoWaiting { t := Transition(t, TodoPending).value; }
      }
    }

    // ----- handoffs -----

    /** GetByClientKey: the newest handoff requested under this key. */
    method FindByClientKey(key: string) returns (r: Option<nat>)
      ensures r == FindKey(handoffs, key)
      ensures r.Some? ==> r.value < |handoffs| && handoffs[r.value].clientKey == key
    {
      var n := |handoffs|;
      assert handoffs[..n] == handoffs;
      while n > 0
        invariant 0 <= n <= |handoffs|
        invariant FindKey(handoffs, key) == FindKey(handoffs[..n], key)
      {
        if handoffs[n - 1].clientKey == key { return Some(n - 1); }
        assert handoffs[..n][..n - 1] == handoffs[..n - 1];
        n := n - 1;
      }
      return None;
    }

    /** CreateHandoff: a repeated request is answered before the claim it has since changed is looked at. */
    method CreateHandoff(h: Handoff, now: int, d: Directory) returns (refused: Option<Refusal>)
      modifies this
      ensures Transacted(old(State()), CreatedHandoff(old(State()), h, now, d), State(), refused)
    {
      if todo.None? { return Some(NotFound); }
      if h.clientKey != "" {
        var found := FindByClientKey(h.clientKey);
        if found.Some? {
          if !SameIntent(handoffs[found.value], h) { return Some(IdempotencyConflict); }
          return None;
        }
      }
      var t := todo.value;
      if GoalEnds(goal) || TodoEnds(t.status) { return Some(StateConflict); }
      if t.claim.None? || !Live(t.claim.value, now) { return Some(StateConflict); }
      if h.source !in d || h.target !in d { return Some(UnresolvedActor); }
      if d[h.source] == d[h.target] || t.claim.value.owner != d[h.source] || d[h.target] !in t.scope {
        return Some(StateConflict);
      }
      handoffs := handoffs + [h.(status := HandoffPending, sourceGeneration := t.generation, targetGeneration := 0,
                                 acceptance := "", resolution := "")];
      refused := None;
    }

    /** activeTransferredHandoff: the accepted transfer that matches the current claim generation. */
    method ActiveTransferredHandoff(d: Directory) returns (r: Result<Option<nat>, Refusal>)
      ensures r.Success? && r.value.Some? ==> ActiveAt(State(), r.value.value, d)
      ensures r.Success? ==> forall i: nat :: ActiveAt(State(), i, d) ==> r.value == Some(i)
      ensures r.Failure? && r.error != UnresolvedActor ==> SeveralActive(State(), d)
      ensures r.Failure? && r.error == UnresolvedActor ==> SomeUnresolved(State(), d)
    {
      if todo.None? || todo.value.claim.None? || todo.value.generation < 1 { return Success(None); }
      var active: Option<nat> := None;
      var i := 0;
      while i < |handoffs|
        invariant 0 <= i <= |handoffs|
        invariant active.Some? ==> active.value < i && ActiveAt(State(), active.value, d)
        invariant forall k: nat :: k < i && ActiveAt(State(), k, d) ==> active == Some(k)
      {
        var h := handoffs[i];
        if h.status == HandoffTransferred && h.targetGeneration == todo.value.generation {
          if h.target !in d {
            assert UnresolvedAt(State(), i, d);
            return Failure(UnresolvedActor);
          }
          if Owned(todo.value, d[h.target]) && d[h.target] in todo.value.scope {
            assert ActiveAt(State(), i, d);
            if active.Some? { return Failure(StateConflict); }
            active := Some(i);
          }
        }
        i := i + 1;
      }
      return Success(active);
    }

    /** handoffForCoordinatorStart: a checkpoint is binding; without one the active transfer decides. */
    method HandoffForCoordinatorStart(d: Directory) returns (r: Result<Option<nat>, Refusal>)
      requires Inv(State())
      ensures r.Success? && r.value.Some? ==> Controls(State(), r.value.value, d)
      ensures forall i: nat :: Controls(State(), i, d) ==> r == Success(Some(i))
    {
      if todo.None? { return Success(None); }
      if control.checkpoint.Some? {
        var id := control.checkpoint.value.handoff;
        if id >= |handoffs| { return Failure(NotFound); }
        var h := handoffs[id];
        if h.target !in d { return Failure(UnresolvedActor); }
        if h.status != HandoffTransferred || !Owned(todo.value, d[h.target])
          || todo.value.generation != h.targetGeneration {
          return Failure(StateConflict);
        }
        return Success(Some(id));
      }
      r := ActiveTransferredHandoff(d);
      TheActiveOneIsFound(State(), d);
    }

    /** handoffSourceRunForContinuation */
    method HandoffSourceRun(source: string, runs: map<string, RunFacts>) returns (r: Result<string, Refusal>)
      ensures r == SourceRun(control, source, runs)
    {
      if control.run == "" { return Success(""); }
      if control.run !in runs { return Failure(NotFound); }
      var current := runs[control.run];
      if current.agent != source { return Failure(StateConflict); }
      if source == control.agent {
        if current.delegated.Some? { return Failure(StateConflict); }
        return Success(control.run);
      }
      if current.delegated.None? || control.checkpoint.None? { return Failure(StateConflict); }
      var p := control.checkpoint.value;
      if current.delegated.value.0 != p.handoff || p.target != source { return Failure(StateConflict); }
      if current.delegated.value.1 != p.generation { return Failure(StateConflict); }
      return Success(control.run);
    }

    /** queueHandoffContinuationLocked, over the handoffs as they are about to be committed. */
    method QueueHandoffContinuation(ghost m: Line, list: seq<Handoff>, id: nat, source: string, target: string,
                                    d: Directory, runs: map<string, RunFacts>) returns (r: Result<Control, Refusal>)
      requires id < |list| && m.handoffs == list && m.control == control
      ensures r == Queued(m, id, source, target, d, runs)
    {
      if ControlEnds(control.status) { return Failure(StateConflict); }
      if control.checkpoint.Some? && control.checkpoint.value.handoff != id {
        var p := control.checkpoint.value;
        if p.handoff >= |list| { return Failure(IdempotencyConflict); }
        var earlier := list[p.handoff];
        if earlier.status != HandoffTransferred || earlier.target !in d || d[earlier.target] != source
           || earlier.targetGeneration != list[id].sourceGeneration || p.generation != list[id].sourceGeneration {
          return Failure(IdempotencyConflict);
        }
      }
      var run := HandoffSourceRun(source, runs);
      if run.Failure? { return Failure(run.error); }
      var c := control.(checkpoint := Some(Checkpoint(id, target, list[id].targetGeneration, run.value, source)));
      if c.run == "" || (c.run in runs && runs[c.run].terminal) {
        c := c.(status := ControlOpen, run := "");
      }
      return Success(c);
    }

    /** AcceptHandoff: claim, handoff and checkpoint change together or not at all. */
    method AcceptHandoff(id: nat, target: string, text: string, now: int, d: Directory, runs: map<string, RunFacts>)
      returns (refused: Option<Refusal>)
      modifies this
      ensures Transacted(old(State()), AcceptedHandoff(old(State()), id, target, text, now, d, runs), State(), refused)
    {
      hide Queued, SourceRun, MaySupersede, Attempt;
      if id >= |handoffs| { return Some(NotFound); }
      var h := handoffs[id];
      if h.status == HandoffTransferred {
        if h.target != target || h.acceptance != text { return Some(IdempotencyConflict); }
        return None;
      }
      if h.status != HandoffPending { return Some(StateConflict); }
      if todo.None? || todo.value.claim.None? || todo.value.generation != h.sourceGeneration
         || !Live(todo.value.claim.value, now) {
        return Some(StateConflict);
      }
      if h.source !in d || target !in d { return Some(UnresolvedActor); }
      if target != h.target || !Owned(todo.value, d[h.source]) || d[target] !in todo.value.scope {
        return Some(StateConflict);
      }
      var moved := TransferRow(todo.value, d[h.source], d[target], h.sourceGeneration, now, now + CLAIM_TTL);
      if moved.Failure? { return Some(moved.error); }
      if text == "" { return Some(Validation); }
      h := h.(status := HandoffTransferred, acceptance := text, targetGeneration := moved.value.generation);
      var list := handoffs[id := h];
      ghost var m := State().(handoffs := list, todo := Some(moved.value));
      var next := QueueHandoffContinuation(m, list, id, d[h.source], d[target], d, runs);
      if next.Failure? { return Some(next.error); }
      control := next.value;
      handoffs := list;
      todo := Some(moved.value);
      refused := None;
    }

    /** resolveHandoffTerminal: reject with a reason, or cancel. */
    method ResolveHandoffTerminal(id: nat, cancel: bool, reason: string) returns (refused: Option<Refusal>)
      modifies this
      ensures Transacted(old(State()), ClosedHandoff(old(State()), id, cancel, reason), State(), refused)
    {
      if id >= |handoffs| { return Some(NotFound); }
      var h := handoffs[id];
      var why := if cancel then "" else reason;
      if cancel && h.status == HandoffCancelled {
        if h.resolution != "" { return Some(IdempotencyConflict); }
        return None;
      }
      if !cancel && h.status == HandoffRejected {
        if h.resolution != reason { return Some(IdempotencyConflict); }
        return None;
      }
      if h.status != HandoffPending { return Some(StateConflict); }
      if !cancel && reason == "" { return Some(Validation); }
      h := h.(resolution := why, status := if cancel then HandoffCancelled else HandoffRejected);
      handoffs := handoffs[id := h];
      refused := None;
    }
  }

  ghost predicate SeveralActive(l: Line, d: Directory) {
    exists i: nat, j: nat :: i < j && ActiveAt(l, i, d) && ActiveAt(l, j, d)
  }

  /** A transfer of the current generation whose target is no longer available. */
  predicate UnresolvedAt(l: Line, i: nat, d: Directory) {
    && i < |l.handoffs| && l.todo.Some? && l.handoffs[i].status == HandoffTransferred
    && l.handoffs[i].targetGeneration == l.todo.value.generation && l.handoffs[i].target !in d
  }

  ghost predicate SomeUnresolved(l: Line, d: Directory) {
    exists i: nat :: UnresolvedAt(l, i, d)
  }

  /** In every sound state the search meets at most one candidate, so neither failure can hide an active transfer. */
  lemma {:induction false} TheActiveOneIsFound(l: Line, d: Directory)
    requires Inv(l)
    ensures !SeveralActive(l, d)
    ensures SomeUnresolved(l, d) ==> forall k: nat :: !ActiveAt(l, k, d)
  {
    forall i: nat, j: nat | ActiveAt(l, i, d) && ActiveAt(l, j, d)
      ensures i == j
    {
      AtMostOneActive(l, d, i, j);
    }
    forall i: nat, k: nat | UnresolvedAt(l, i, d)
      ensures !ActiveAt(l, k, d)
    {
      if k < |l.handoffs| && k != i && l.handoffs[k].status == HandoffTransferred {
        TransfersDiffer(l, i, k);
      }
    }
  }

  lemma {:induction false} TransfersDiffer(l: Line, i: nat, j: nat)
    requires TransfersApart(l) && i < |l.handoffs| && j < |l.handoffs| && i != j
    requires l.handoffs[i].status == HandoffTransferred && l.handoffs[j].status == HandoffTransferred
    ensures l.handoffs[i].targetGeneration != l.handoffs[j].targetGeneration
  {
  }
}
