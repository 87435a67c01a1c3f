/**
  Cancelling a Goal: one transaction sweeps its Todos, the open Plan, pending
  handoffs, the whole task tree, its Runs and their approvals
  (internal/application/governance.go, plan.go, service.go).
 */
module GoalCancellation {
  import opened Wrappers
  import opened Governance
  import opened PlanExecution
  import Keys = SettlementKeys
  import Text

  datatype RunStatus =
    | RunQueued | RunStarting | RunRunning | RunWaitingApproval | RunInterrupting | RunCancelling | RunReconnecting
    | RunSucceeding | RunSucceeded | RunInterrupted | RunCancelled | RunLost | RunFailed

  datatype DispatchStatus = DispatchRunning | DispatchCollecting | DispatchCompleted | DispatchDegraded
    | DispatchCancelled

  datatype RunRow = RunRow(id: string, status: RunStatus, approvals: seq<ApprovalStatus>)

  datatype ItemRow = ItemRow(status: ItemStatus, dispatches: seq<DispatchStatus>, runs: seq<RunRow>)

  /** What the runner is told about a Run once the transaction has committed. */
  datatype Signal = Signal(run: string, interrupt: bool)

  /** The Coordinator's status and, after a cancellation, the turns still to be settled. */
  datatype ControlRow = ControlRow(status: ControlStatus, checkpoint: Option<Keys.Value>)

  /**
    Everything one Goal owns: its current Todo's last turn, the turns that hold
    an open reservation, the root's Plans (oldest first), and the rest.
   */
  datatype Estate = Estate(
    id: string, goal: GoalStatus, todos: seq<Todo>, turn: Option<Keys.TurnKey>, reserved: seq<Keys.TurnKey>,
    control: Option<ControlRow>, plans: seq<PlanRow>, handoffs: seq<Handoff>, items: seq<ItemRow>)

  predicate RunEnds(s: RunStatus) {
    s in {RunSucceeded, RunInterrupted, RunCancelled, RunLost, RunFailed}
  }

  predicate DispatchEnds(s: DispatchStatus) { s in {DispatchCompleted, DispatchDegraded, DispatchCancelled} }

  /** The legal edges of a Run that a cancellation may take. */
  predicate RunStep(a: RunStatus, b: RunStatus) {
    match b
    case RunCancelled => a in {RunQueued, RunStarting, RunReconnecting, RunSucceeding, RunCancelling}
    case RunCancelling => a in {RunStarting, RunRunning, RunWaitingApproval, RunReconnecting, RunSucceeding}
    case _ => false
  }

  /** Nothing is executing for the Run any more, or it has been told to stop. */
  predicate Stopping(s: RunStatus) { RunEnds(s) || s == RunCancelling || s == RunInterrupting }

  // ----- what the sweep leaves -----

  /** A Run without a live process ends at once; a live one is asked to stop; a stopping one is left alone. */
  function StoppedStatus(s: RunStatus): RunStatus {
    match s
    case RunQueued | RunStarting | RunReconnecting | RunSucceeding => RunCancelled
    case RunRunning | RunWaitingApproval => RunCancelling
    case _ => s
  }

  function StoppedRun(r: RunRow): RunRow {
    RunRow(r.id, StoppedStatus(r.status),
           seq(|r.approvals|, i requires 0 <= i < |r.approvals| => Expired(r.approvals[i])))
  }

  function ClosedDispatch(s: DispatchStatus): DispatchStatus { if DispatchEnds(s) then s else DispatchCancelled }

  function SweptItem(t: ItemRow): ItemRow {
    ItemRow(CancelledItem(t.status),
            seq(|t.dispatches|, i requires 0 <= i < |t.dispatches| => ClosedDispatch(t.dispatches[i])),
            seq(|t.runs|, i requires 0 <= i < |t.runs| => StoppedRun(t.runs[i])))
  }

  function SignalsOfRuns(runs: seq<RunRow>): seq<Signal> {
    if runs == [] then []
    else
      var r := runs[|runs| - 1];
      SignalsOfRuns(runs[..|runs| - 1]) + (if RunEnds(r.status) then []
        else [Signal(r.id, r.status == RunInterrupting)])
  }

  function SignalsOf(items: seq<ItemRow>): seq<Signal> {
    if items == [] then [] else SignalsOf(items[..|items| - 1]) + SignalsOfRuns(items[|items| - 1].runs)
  }

  /** Every turn that may owe a settlement belongs to this Goal. */
  predicate TurnsOwned(e: Estate) {
    && !Text.AllSpace(e.id) && Keys.Owns(e.id, e.reserved)
    && (e.turn.Some? ==> Keys.Owns(e.id, [e.turn.value]))
  }

  /** The turns the cancellation has to settle, in their one sorted order. */
  ghost predicate Owed(e: Estate, keys: seq<Keys.TurnKey>) {
    Keys.Sorted(keys) && forall k :: k in keys <==> k in e.reserved || e.turn == Some(k)
  }

  /** The turn keys are collected before anything is changed, and stay with the Coordinator until they are settled. */
  function Swept(e: Estate, keys: seq<Keys.TurnKey>): Result<Estate, Refusal> {
    if !TurnsOwned(e) then Failure(Validation)
    else if GoalEnds(e.goal) then Failure(IllegalTransition)
    else if e.control.Some? && ControlEnds(e.control.value.status) then Failure(StateConflict)
    else
      Success(e.(
        goal := GoalCancelled,
        todos := seq(|e.todos|, i requires 0 <= i < |e.todos| => CancelRow(e.todos[i])),
        control := if e.control.None? then None
                   else Some(ControlRow(ControlCancelled, if keys == [] then None else Some(Keys.Encode(keys)))),
        plans := CancelledPlans(e.plans),
        handoffs := seq(|e.handoffs|, i requires 0 <= i < |e.handoffs| => CancelledHandoff(e.handoffs[i])),
        items := seq(|e.items|, i requires 0 <= i < |e.items| => SweptItem(e.items[i]))))
  }

  // ----- the sweep itself -----

  class GoverningService {
    const id: string
    var goal: GoalStatus
    var todos: seq<Todo>
    var turn: Option<Keys.TurnKey>
    var reserved: seq<Keys.TurnKey>
    var control: Option<ControlRow>
    var plans: seq<PlanRow>
    var handoffs: seq<Handoff>
    var items: seq<ItemRow>

    ghost function State(): Estate
      reads this
    {
      Estate(id, goal, todos, turn, reserved, control, plans, handoffs, items)
    }

    /** cancelRunDecision */
    static method CancelRunDecision(s: RunStatus) returns (target: RunStatus, interrupt: bool, transition: bool)
      requires !RunEnds(s)
      ensures target == StoppedStatus(s) && interrupt == (s == RunInterrupting)
      ensures transition <==> target != s
      ensures transition ==> RunStep(s, target)
    {
      match s {
        case RunQueued | RunStarting | RunReconnecting | RunSucceeding =>
          return RunCancelled, false, true;
        case RunRunning | RunWaitingApproval =>
          return RunCancelling, false, true;
        case RunCancelling =>
          return s, false, false;
        case RunInterrupting =>
          return s, true, false;
      }
    }

    static method ExpireApprovals(given: seq<ApprovalStatus>) returns (approvals: seq<ApprovalStatus>)
      ensures |approvals| == |given| && forall i :: 0 <= i < |given| ==> approvals[i] == Expired(given[i])
    {
      approvals := given;
      for i := 0 to |given|
        invariant |approvals| == |given|
        invariant forall k :: 0 <= k < i ==> approvals[k] == Expired(given[k])
        invariant forall k :: i <= k < |given| ==> approvals[k] == given[k]
      {
        if approvals[i] != ApprovalPending { continue; }
        approvals := approvals[i := ApprovalExpired];
      }
    }

    /** Every Run of one task; even an ended Run loses its pending approvals. */
    static method CancelRuns(given: seq<RunRow>) returns (runs: seq<RunRow>, signals: seq<Signal>)
      ensures |runs| == |given| && forall i :: 0 <= i < |given| ==> runs[i] == StoppedRun(given[i])
      ensures signals == SignalsOfRuns(given)
    {
      runs, signals := given, [];
      for i := 0 to |given|
        invariant |runs| == |given|
        invariant forall k :: 0 <= k < i ==> runs[k] == StoppedRun(given[k])
        invariant forall k :: i <= k < |given| ==> runs[k] == given[k]
        invariant signals == SignalsOfRuns(given[..i])
      {
        assert given[..i + 1][..i] == given[..i];
        var run := runs[i];
        if !RunEnds(run.status) {
          var target, interrupt, transition := CancelRunDecision(run.status);
          if transition { run := run.(status := target); }
          signals := signals + [Signal(run.id, interrupt)];
        }
        var approvals := ExpireApprovals(run.approvals);
        assert approvals == StoppedRun(given[i]).approvals;
        runs := runs[i := run.(approvals := approvals)];
      }
      assert given[..|given|] == given;
    }

    static method CancelOpenDispatches(given: seq<DispatchStatus>) returns (dispatches: seq<DispatchStatus>)
      ensures |dispatches| == |given| && forall i :: 0 <= i < |given| ==> dispatches[i] == ClosedDispatch(given[i])
    {
      dispatches := given;
      for i := 0 to |given|
        invariant |dispatches| == |given|
        invariant forall k :: 0 <= k < i ==> dispatches[k] == ClosedDispatch(given[k])
        invariant forall k :: i <= k < |given| ==> dispatches[k] == given[k]
      {
        if DispatchEnds(dispatches[i]) { continue; }
        dispatches := dispatches[i := DispatchCancelled];
      }
    }

    method CancelTodos()
      modifies this`todos
      ensures |todos| == |old(todos)| && forall i :: 0 <= i < |todos| ==> todos[i] == CancelRow(old(todos)[i])
    {
      ghost var given := todos;
      for i := 0 to |todos|
        invariant |todos| == |given|
        invariant forall k :: 0 <= k < i ==> todos[k] == CancelRow(given[k])
        invariant forall k :: i <= k < |given| ==> todos[k] == given[k]
      {
        if TodoEnds(todos[i].status) { continue; }
        todos := todos[i := CancelRow(todos[i])];
      }
    }

    method CancelPlan()
      modifies this`plans
      ensures plans == CancelledPlans(old(plans))
    {
      var open := OpenPlan(plans);
      if open.None? { return; }
      var plan := plans[open.value];
      var gates := PlanService.ExpirePlanDispatchApprovals(plan.gates);
      var steps := PlanService.SkipRemainingSteps(plan.steps, 0);
      plans := plans[open.value := plan.(status := PlanCancelled, steps := steps, gates := gates)];
    }

    method CancelHandoffs()
      modifies this`handoffs
      ensures |handoffs| == |old(handoffs)|
      ensures forall i :: 0 <= i < |handoffs| ==> handoffs[i] == CancelledHandoff(old(handoffs)[i])
    {
      ghost var given := handoffs;
      for i := 0 to |handoffs|
        invariant |handoffs| == |given|
        invariant forall k :: 0 <= k < i ==> handoffs[k] == CancelledHandoff(given[k])
        invariant forall k :: i <= k < |given| ==> handoffs[k] == given[k]
      {
        if handoffs[i].status != HandoffPending { continue; }
        handoffs := handoffs[i := handoffs[i].(status := HandoffCancelled)];
      }
    }

    method CancelTree() returns (signals: seq<Signal>)
      modifies this`items
      ensures |items| == |old(items)| && forall i :: 0 <= i < |items| ==> items[i] == SweptItem(old(items)[i])
      ensures signals == SignalsOf(old(items))
    {
      ghost var given := items;
      signals := [];
      for i := 0 to |items|
        invariant |items| == |given|
        invariant forall k :: 0 <= k < i ==> items[k] == SweptItem(given[k])
        invariant forall k :: i <= k < |given| ==> items[k] == given[k]
        invariant signals == SignalsOf(given[..i])
      {
        assert given[..i + 1][..i] == given[..i];
        var item := items[i];
        if !ItemEnds(item.status) { item := item.(status := ItemCancelled); }
        var dispatches := CancelOpenDispatches(item.dispatches);
        var runs, more := CancelRuns(item.runs);
        assert dispatches == SweptItem(given[i]).dispatches && runs == SweptItem(given[i]).runs;
        items := items[i := ItemRow(item.status, dispatches, runs)];
        signals := signals + more;
      }
      assert given[..|given|] == given;
    }

    method CancelGoal() returns (refused: Option<Refusal>, signals: seq<Signal>, keys: seq<Keys.TurnKey>)
      modifies this
      ensures match Swept(old(State()), keys)
              case Success(e) => refused.None? && State() == e && Owed(e, keys) && signals == SignalsOf(old(items))
              case Failure(e) => refused == Some(e) && State() == old(State()) && signals == []
    {
      hide SweptItem, ClosedPlan, CancelRow, CancelledHandoff, SignalsOf, Text.AllSpace, Keys.Owns, Keys.Sorted;
      var collected := Keys.GoalSettlementTurnKeys(id, turn, reserved);
      if collected.Failure? { return Some(Validation), [], []; }
      keys := collected.value;
      if !GoalStep(goal, GoalCancelled) { return Some(IllegalTransition), [], keys; }
      if control.Some? && ControlEnds(control.value.status) { return Some(StateConflict), [], keys; }
      ghost var e := State();
      goal := GoalCancelled;
      CancelTodos();
      if control.Some? {
        control := Some(ControlRow(ControlCancelled, if keys == [] then None else Some(Keys.Encode(keys))));
      }
      CancelPlan();
      CancelHandoffs();
      signals := CancelTree();
      assert todos == Swept(e, keys).value.todos;
      assert handoffs == Swept(e, keys).value.handoffs;
      assert items == Swept(e, keys).value.items;
      refused := None;
    }
  }

  // ----- what a cancelled Goal has left -----

  predicate ItemAtRest(t: ItemRow) {
    && ItemEnds(t.status)
    && (forall i :: 0 <= i < |t.dispatches| ==> DispatchEnds(t.dispatches[i]))
    && (forall i :: 0 <= i < |t.runs| ==> Stopping(t.runs[i].status))
    && (forall i, j :: 0 <= i < |t.runs| && 0 <= j < |t.runs[i].approvals| ==>
        t.runs[i].approvals[j] != ApprovalPending)
  }

  predicate AtRest(e: Estate) {
    && GoalEnds(e.goal) && (e.control.Some? ==> ControlEnds(e.control.value.status))
    && (forall i :: 0 <= i < |e.todos| ==> TodoEnds(e.todos[i].status))
    && (forall i :: 0 <= i < |e.handoffs| ==> e.handoffs[i].status != HandoffPending)
    && (forall i :: 0 <= i < |e.items| ==> ItemAtRest(e.items[i]))
  }

  /** Nothing of a cancelled Goal is left open; a claim survives only on a Todo that had already ended. */
  lemma {:induction false} CancelledIsAtRest(e: Estate, keys: seq<Keys.TurnKey>)
    requires Swept(e, keys).Success?
    ensures AtRest(Swept(e, keys).value)
    ensures forall i :: 0 <= i < |e.todos| && !TodoEnds(e.todos[i].status) ==>
              && Swept(e, keys).value.todos[i].claim.None?
              && Swept(e, keys).value.todos[i].generation == Cleared(e.todos[i])
  {
  }

  /** The sweep closes the one Plan that can be open: whatever was submitted before, none is left with work to do. */
  lemma {:induction false} CancelledPlansEnd(e: Estate, keys: seq<Keys.TurnKey>, events: seq<Event>, k: nat)
    requires Swept(e, keys).Success? && e.plans == After(EMPTY_DESK, events).plans && k < |e.plans|
    ensures PlanEnds(Swept(e, keys).value.plans[k].status) && NothingPending(Swept(e, keys).value.plans[k])
    ensures forall j :: 0 <= j < |e.plans[k].steps| && e.plans[k].steps[j].status == StepExecuted ==>
              Swept(e, keys).value.plans[k].steps[j] == e.plans[k].steps[j]
  {
    EmptyIsSound();
    DeskStaysSound(EMPTY_DESK, events);
    var d := After(EMPTY_DESK, events);
    CancelKeeps(d);
    PlanIsOk(d.(plans := CancelledPlans(d.plans)), k);
    hide After, Inv;
  }

  /** What had already ended keeps its outcome. */
  lemma {:induction false} EndedStaysAsItWas(e: Estate, keys: seq<Keys.TurnKey>, i: nat, j: nat)
    requires Swept(e, keys).Success?
    ensures i < |e.todos| && TodoEnds(e.todos[i].status) ==> Swept(e, keys).value.todos[i] == e.todos[i]
    ensures i < |e.handoffs| && e.handoffs[i].status != HandoffPending ==>
              Swept(e, keys).value.handoffs[i] == e.handoffs[i]
    ensures i < |e.plans| && PlanEnds(e.plans[i].status) ==> Swept(e, keys).value.plans[i] == e.plans[i]
    ensures i < |e.items| && j < |e.items[i].runs| && RunEnds(e.items[i].runs[j].status) ==>
              Swept(e, keys).value.items[i].runs[j].status == e.items[i].runs[j].status
  {
  }

  /**
    Across a restart: the recovery loop reads back, from the checkpoint the
    cancellation left and the Goal's current turn, exactly the turns that owe a
    settlement, if and only if the saved numbers are recoverable.
   */
  lemma {:induction false} OwedTurnsAreRecoveredExactly(e: Estate, keys: seq<Keys.TurnKey>, m: Estate)
    requires Owed(e, keys) && Swept(e, keys) == Success(m) && m.control.Some?
    requires forall k :: k in keys ==> k.number < Keys.TWO_63
    ensures m.control.value.checkpoint.None? <==> keys == []
    ensures keys != [] ==>
              var read := Keys.Decoded(Some(Keys.Reloaded(m.control.value.checkpoint.value)), e.id, e.turn);
              Keys.Recoverable(keys, e.turn) <==>
              read.Success? && forall k :: k in read.value <==> k in e.reserved || e.turn == Some(k)
  {
    hide Text.AllSpace, Keys.Decoded, Keys.Reloaded, Keys.Recoverable, Keys.Encode, Keys.ValidKey;
    forall i | 0 <= i < |keys|
      ensures Keys.ValidKey(keys[i]) && keys[i].goal == e.id
    {
      assert keys[i] in keys;
      if e.turn == Some(keys[i]) { assert [e.turn.value][0] == keys[i]; }
    }
    assert Keys.Storable(keys, e.id);
    Keys.CheckpointIs(keys);
    Keys.RecoveredExactly(keys, e.id, e.turn);
  }

  /** A Run of this id had not ended, and was or was not already being interrupted. */
  predicate Unended(runs: seq<RunRow>, id: string, interrupt: bool) {
    exists j :: 0 <= j < |runs| && runs[j].id == id && !RunEnds(runs[j].status)
                && interrupt == (runs[j].status == RunInterrupting)
  }

  lemma {:induction false} RunSignalled(runs: seq<RunRow>, id: string, interrupt: bool)
    ensures Signal(id, interrupt) in SignalsOfRuns(runs) <==> Unended(runs, id, interrupt)
  {
    hide RunEnds;
    if runs != [] {
      var k := |runs| - 1;
      RunSignalled(runs[..k], id, interrupt);
      var last := if RunEnds(runs[k].status) then [] else [Signal(runs[k].id, runs[k].status == RunInterrupting)];
      assert SignalsOfRuns(runs) == SignalsOfRuns(runs[..k]) + last;
      assert forall j :: 0 <= j < k ==> runs[..k][j] == runs[j];
    }
  }

  /** The runner hears about exactly the Runs that had not ended, and keeps a pending interrupt an interrupt. */
  lemma {:induction false} SignalledExactly(items: seq<ItemRow>, id: string, interrupt: bool)
    ensures Signal(id, interrupt) in SignalsOf(items) <==>
            exists i :: 0 <= i < |items| && Unended(items[i].runs, id, interrupt)
  {
    hide Unended, SignalsOfRuns;
    if items != [] {
      var k := |items| - 1;
      SignalledExactly(items[..k], id, interrupt);
      RunSignalled(items[k].runs, id, interrupt);
      assert forall i :: 0 <= i < k ==> items[..k][i] == items[i];
    }
  }
}
