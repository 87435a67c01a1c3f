/**
  The Task Coordinator: what a terminal Run, a broken plan or a due checkpoint does
  to the control state of one root task
  (internal/application/coordinator_engine.go, coordinator_plan_repair.go).
  Every handler re-reads the state in its own transaction, so each is one step.
 */
module Coordinator {
  import opened Wrappers

  const MAX_WORKER_ATTEMPTS := 3
  const MAX_OWN_FAILURES := 2
  const MAX_PLAN_REPAIRS := 2

  // ----- state, runs and what a handler looks up -----

  datatype Status = Queued | Running | WaitingRetry | WaitingUser | Blocked | Completed | Cancelled

  datatype Action = NoAction | Recover | RepairPlan | RetryWorker | SettleDispatch | HandoffContinuation

  datatype Repair = NoRepair | RepairPending | RepairExhausted

  /** The stored Coordinator state; an empty Run id means there is none. */
  datatype Control = Control(
    status: Status, current: string, action: Action, retryOf: string,
    failures: nat, useFallback: bool, rounds: nat, repair: Repair, repairAttempt: nat,
    handoffSource: Option<string>, planRetry: string, attempt: nat, consumed: nat)

  datatype Outcome = Succeeded | Stopped | Failed(retryable: bool)

  datatype Turn = NoTurn | Intake | Evaluation | Repairing | OtherTurn

  datatype Run = Run(id: string, governed: bool, turn: Turn, attempt: nat, outcome: Outcome, healOwned: bool,
    settlement: bool)

  datatype PlanView = NoPlan | Plan(own: bool, failed: bool, open: bool)

  /** Everything else a handler reads in its transaction. */
  datatype World = World(
    goalActive: bool, rootBlocked: bool, rootExecuting: bool, plan: PlanView, evaluation: Option<string>,
    mockIntake: bool, evaluationRun: bool, openDispatches: bool, unread: bool, evidenceReady: bool,
    receiptOk: bool, checkpointIsRuns: bool)

  predicate ExecutionStopped(s: Status) {
    s == Blocked || s == WaitingUser || s == Completed || s == Cancelled
  }

  predicate RetryPending(c: Control) {
    c.action != SettleDispatch && (c.status == WaitingRetry || c.action == RetryWorker)
  }

  predicate Superseded(c: Control, run: Run) {
    !run.governed && c.current != "" && c.current != run.id
  }

  predicate HandoffPending(c: Control) {
    c.action == HandoffContinuation && c.handoffSource.Some?
  }

  // ----- the transitions -----

  function ClearHandoff(c: Control): Control {
    if c.handoffSource.None? then c
    else c.(handoffSource := None, action := if c.action == HandoffContinuation then NoAction else c.action)
  }

  function Block(c: Control, failed: Option<Run>): Control {
    if failed.Some? && Superseded(c, failed.value) then c
    else if failed.Some? && failed.value.governed && c.current != failed.value.id then c
    else if c.status == Completed || c.status == Cancelled then c
    else if c.status == Blocked then ClearHandoff(c)
    else ClearHandoff(c).(status := Blocked, current := "")
  }

  function WaitUser(c: Control, run: Run, unread: bool): Control {
    if c.current != run.id then c
    else c.(status := if unread then Queued else WaitingUser, current := "")
  }

  function ClearRepair(c: Control): Control {
    c.(repair := NoRepair, repairAttempt := 0)
  }

  function AfterSuccess(c: Control, run: Run, w: World): Control {
    var own := w.plan.Plan? && w.plan.own;
    var repaired := if run.turn == Repairing && c.repair == RepairPending && own then ClearRepair(c) else c;
    repaired.(current := "", failures := 0, useFallback := false)
  }

  /** Where the control line goes once a successful turn has been accounted for. */
  function Onward(base: Control, run: Run, w: World): Control {
    if w.evaluation.Some? then base.(status := Running, current := w.evaluation.value)
    else if run.turn != NoTurn && run.turn != Evaluation && !(run.turn == Intake && w.mockIntake)
         && (w.plan.NoPlan? || !w.plan.own || w.plan.failed) then
      ClearHandoff(base.(status := Blocked))
    else if run.turn == Evaluation && w.rootExecuting then base.(status := Queued)
    else if w.plan.Plan? && w.plan.own && w.plan.open then base.(status := Running)
    else if w.evaluationRun && w.openDispatches then base.(status := Running)
    else if w.unread then base.(status := Queued)
    else if !w.evidenceReady then ClearHandoff(base.(status := Blocked))
    else base.(status := WaitingUser)
  }

  /** A rejected evaluation needs a control receipt, or the whole transaction is rolled back. */
  predicate RolledBack(run: Run, w: World) {
    w.evaluation.None? && run.turn == Evaluation && w.rootExecuting && !w.receiptOk
  }

  function CoordinatorSuccess(c: Control, run: Run, w: World): Control {
    if c.current != run.id then c
    else if w.rootBlocked then Block(c, Some(run))
    else if RolledBack(run, w) then c
    else Onward(AfterSuccess(c, run, w), run, w)
  }

  function CoordinatorTerminal(c: Control, run: Run, w: World): Control {
    match run.outcome
    case Succeeded => CoordinatorSuccess(c, run, w)
    case Stopped => WaitUser(c, run, w.unread)
    case Failed(retryable) =>
      if RetryPending(c) || c.action == SettleDispatch then c
      else if retryable && c.failures + 1 < MAX_OWN_FAILURES then
        if c.current != run.id then c
        else
          var repairFailed := c.repair == RepairPending && run.turn == Repairing;
          c.(failures := c.failures + 1, useFallback := !repairFailed,
             action := if repairFailed then RepairPlan else Recover, status := WaitingRetry, current := "")
      else Block(c, Some(run))
  }

  function WorkerSuccess(c: Control, run: Run, w: World): Control {
    if c.action == RetryWorker && c.retryOf == "" then c
    else if c.retryOf == "" || w.checkpointIsRuns then
      c.(current := "", rounds := 0, retryOf := "", action := NoAction)
    else c.(current := "")
  }

  function WorkerTerminal(c: Control, run: Run, w: World): Control {
    if Superseded(c, run) then c
    else
      match run.outcome
      case Succeeded => WorkerSuccess(c, run, w)
      case Stopped => WaitUser(c, run, w.unread)
      case Failed(retryable) =>
        if run.healOwned then c
        else if retryable && run.attempt < MAX_WORKER_ATTEMPTS then
          c.(status := WaitingRetry, current := "", retryOf := run.id, action := RetryWorker)
        else if retryable && c.rounds < 1 then
          if w.receiptOk then
            c.(status := Queued, current := "", retryOf := "", action := NoAction, rounds := c.rounds + 1)
          else c
        else Block(c, Some(run))
  }

  /** What the terminal hook of a Run does. */
  function Hook(c: Control, run: Run, w: World): Control {
    if !w.goalActive || ExecutionStopped(c.status) then c
    else if HandoffPending(c) && c.current == run.id && c.handoffSource == Some(run.id) then
      c.(status := Queued, current := "")
    else if run.governed && c.current != run.id then c
    else if run.governed && c.planRetry == run.id then c
    else if run.settlement && RetryPending(c) then c
    else if run.governed then CoordinatorTerminal(c, run, w)
    else WorkerTerminal(c, run, w)
  }

  /** A due retry of the checkpointed Worker Run; a Run is retried at most once. */
  predicate CanRetry(c: Control, alreadyRetried: bool) {
    (c.status == WaitingRetry || c.status == Running) && c.action == RetryWorker && c.current == "" && !alreadyRetried
  }

  function StartRetry(c: Control, newRun: string, alreadyRetried: bool): Control {
    if CanRetry(c, alreadyRetried) then c.(status := Running, current := newRun) else c
  }

  /** A Coordinator turn may start from a checkpoint, or from observation when feedback is unread. */
  predicate CanStart(c: Control, unread: bool, treeActive: bool) {
    && !ExecutionStopped(c.status) && c.current == ""
    && (c.action == RepairPlan ==> c.repair == RepairPending && c.repairAttempt >= 1)
    && (c.status == Running && c.action == NoAction ==> unread && !treeActive)
  }

  function StartTurn(c: Control, newRun: string, latest: nat, unread: bool, treeActive: bool): Control {
    if CanStart(c, unread, treeActive) then
      c.(status := Running, current := newRun, attempt := c.attempt + 1, consumed := latest, action := NoAction)
    else c
  }

  /** A PlanDecision that cannot be decoded or validated: two repairs, then a blocker. */
  function PlanRepair(c: Control, run: Run, started: Option<string>, latest: nat): Control {
    if c.current != run.id || c.status == Completed || c.status == Cancelled || c.repair == RepairExhausted then c
    else if c.repairAttempt >= MAX_PLAN_REPAIRS then
      ClearHandoff(c.(repair := RepairExhausted, repairAttempt := MAX_PLAN_REPAIRS, status := Blocked,
                      current := "", action := NoAction))
    else
      var queued := c.(repair := RepairPending, repairAttempt := c.repairAttempt + 1,
                       status := Queued, current := "", action := RepairPlan);
      if started.Some? then StartTurn(queued, started.value, latest, false, false) else queued
  }

  // ----- the handlers, on the stored state -----

  class TaskCoordinator {
    var status: Status
    var current: string
    var action: Action
    var retryOf: string
    var failures: nat
    var useFallback: bool
    var rounds: nat
    var repair: Repair
    var repairAttempt: nat
    var handoffSource: Option<string>
    var planRetry: string
    var attempt: nat
    var consumed: nat

    ghost function State(): Control
      reads this
    {
      Control(status, current, action, retryOf, failures, useFallback, rounds, repair, repairAttempt,
              handoffSource, planRetry, attempt, consumed)
    }

    method ClearHandoffCheckpoint()
      modifies this`handoffSource, this`action
      ensures State() == ClearHandoff(old(State()))
    {
      if handoffSource.Some? {
        handoffSource := None;
        if action == HandoffContinuation { action := NoAction; }
      }
    }

    method BlockCoordinator(failed: Option<Run>)
      modifies this
      ensures State() == Block(old(State()), failed)
    {
      if failed.Some? {
        var run := failed.value;
        if !run.governed && current != "" && current != run.id {
          return;
        }
        if run.governed && current != run.id {
          return;
        }
      }
      if status == Completed || status == Cancelled {
        return;
      }
      var alreadyBlocked := status == Blocked;
      ClearHandoffCheckpoint();
      if !alreadyBlocked {
        status := Blocked;
        current := "";
      }
    }

    method SetCoordinatorWaitingUser(run: Run, hasUnconsumed: bool)
      modifies this
      ensures State() == WaitUser(old(State()), run, hasUnconsumed)
    {
      if current != run.id {
        return;
      }
      if hasUnconsumed {
        status := Queued;
      } else {
        status := WaitingUser;
      }
      current := "";
    }

    method AccountForSuccess(run: Run, w: World)
      modifies this`current, this`repair, this`repairAttempt, this`failures, this`useFallback
      ensures State() == AfterSuccess(old(State()), run, w)
    {
      current := "";
      if run.turn == Repairing && repair == RepairPending && w.plan.Plan? && w.plan.own {
        repair := NoRepair;
        repairAttempt := 0;
      }
      failures := 0;
      useFallback := false;
    }

    method MoveOnward(run: Run, w: World)
      modifies this`status, this`current, this`handoffSource, this`action
      ensures State() == Onward(old(State()), run, w)
    {
      if w.evaluation.Some? {
        status := Running;
        current := w.evaluation.value;
      } else if run.turn != NoTurn && run.turn != Evaluation && !(run.turn == Intake && w.mockIntake)
             && (w.plan.NoPlan? || !w.plan.own || w.plan.failed) {
        status := Blocked;
        ClearHandoffCheckpoint();
      } else if run.turn == Evaluation && w.rootExecuting {
        status := Queued;
      } else if w.plan.Plan? && w.plan.own && w.plan.open {
        status := Running;
      } else if w.evaluationRun && w.openDispatches {
        status := Running;
      } else if w.unread {
        status := Queued;
      } else if !w.evidenceReady {
        status := Blocked;
        ClearHandoffCheckpoint();
      } else {
        status := WaitingUser;
      }
    }

    method HandleCoordinatorSuccess(run: Run, w: World)
      modifies this
      ensures State() == CoordinatorSuccess(old(State()), run, w)
    {
      hide AfterSuccess, Onward, Block;
      if current != run.id {
        return;
      }
      if w.rootBlocked {
        BlockCoordinator(Some(run));
        return;
      }
      if w.evaluation.None? && run.turn == Evaluation && w.rootExecuting && !w.receiptOk {
        return;
      }
      AccountForSuccess(run, w);
      MoveOnward(run, w);
    }

    method HandleCoordinatorTerminal(run: Run, w: World)
      modifies this
      ensures State() == CoordinatorTerminal(old(State()), run, w)
    {
      match run.outcome
      case Succeeded =>
        HandleCoordinatorSuccess(run, w);
      case Stopped =>
        SetCoordinatorWaitingUser(run, w.unread);
      case Failed(retryable) =>
        if action == SettleDispatch || status == WaitingRetry || action == RetryWorker {
          return;
        }
        var count := failures + 1;
        if retryable && count < MAX_OWN_FAILURES {
          if current != run.id {
            return;
          }
          failures := count;
          useFallback := true;
          action := Recover;
          if repair == RepairPending && run.turn == Repairing {
            useFallback := false;
            action := RepairPlan;
          }
          status := WaitingRetry;
          current := "";
          return;
        }
        BlockCoordinator(Some(run));
    }

    method HandleCoordinatorWorkerTerminal(run: Run, w: World)
      modifies this
      ensures State() == WorkerTerminal(old(State()), run, w)
    {
      if !run.governed && current != "" && current != run.id {
        return;
      }
      match run.outcome
      case Succeeded =>
        if action == RetryWorker && retryOf == "" {
          return;
        }
        current := "";
        if retryOf == "" || w.checkpointIsRuns {
          rounds := 0;
          retryOf := "";
          action := NoAction;
        }
      case Stopped =>
        SetCoordinatorWaitingUser(run, w.unread);
      case Failed(retryable) =>
        if run.healOwned {
          return;
        }
        if retryable && run.attempt < MAX_WORKER_ATTEMPTS {
          status := WaitingRetry;
          current := "";
          retryOf := run.id;
          action := RetryWorker;
          return;
        }
        if retryable && rounds < 1 {
          if w.receiptOk {
            status := Queued;
            current := "";
            retryOf := "";
            action := NoAction;
            rounds := rounds + 1;
          }
          return;
        }
        BlockCoordinator(Some(run));
    }

    method MaybeAdvanceTaskCoordinator(run: Run, w: World)
      modifies this
      ensures State() == Hook(old(State()), run, w)
    {
      if !w.goalActive || ExecutionStopped(status) {
        return;
      }
      if action == HandoffContinuation && handoffSource == Some(run.id) && current == run.id {
        status := Queued;
        current := "";
        return;
      }
      if run.governed && current != run.id {
        return;
      }
      if run.governed && planRetry == run.id {
        return;
      }
      if run.settlement && action != SettleDispatch && (status == WaitingRetry || action == RetryWorker) {
        return;
      }
      if run.governed {
        HandleCoordinatorTerminal(run, w);
      } else {
        HandleCoordinatorWorkerTerminal(run, w);
      }
    }

    method StartScheduledWorkerRetry(newRun: string, alreadyRetried: bool)
      modifies this
      ensures State() == StartRetry(old(State()), newRun, alreadyRetried)
    {
      if (status != WaitingRetry && status != Running) || action != RetryWorker || current != "" {
        return;
      }
      if alreadyRetried {
        return;
      }
      status := Running;
      current := newRun;
    }

    method StartCoordinatorTurn(newRun: string, latest: nat, unread: bool, treeActive: bool)
      modifies this
      ensures State() == StartTurn(old(State()), newRun, latest, unread, treeActive)
    {
      if ExecutionStopped(status) || current != "" {
        return;
      }
      if status == Running && action == NoAction && (!unread || treeActive) {
        return;
      }
      if action == RepairPlan && (repair != RepairPending || repairAttempt < 1) {
        return;
      }
      status := Running;
      current := newRun;
      attempt := attempt + 1;
      consumed := latest;
      action := NoAction;
    }

    method ScheduleCoordinatorPlanRepair(run: Run, started: Option<string>, latest: nat)
      modifies this
      ensures State() == PlanRepair(old(State()), run, started, latest)
    {
      if current != run.id || status == Completed || status == Cancelled || repair == RepairExhausted {
        return;
      }
      if repairAttempt >= MAX_PLAN_REPAIRS {
        repair := RepairExhausted;
        repairAttempt := MAX_PLAN_REPAIRS;
        status := Blocked;
        current := "";
        action := NoAction;
        ClearHandoffCheckpoint();
        return;
      }
      repair := RepairPending;
      repairAttempt := repairAttempt + 1;
      status := Queued;
      current := "";
      action := RepairPlan;
      if started.Some? {
        StartCoordinatorTurn(started.value, latest, false, false);
      }
    }
  }

  // ----- fencing of terminal hooks -----

  /** The control state, and the Runs that have ended: a Run that ended never becomes current again. */
  datatype Fence = Fence(control: Control, ended: set<string>)

  datatype Event =
    | Deliver(run: Run, world: World)
    | Start(newRun: string, latest: nat, unread: bool, treeActive: bool)
    | Retry(newRun: string, alreadyRetried: bool)
    | BadPlan(run: Run, started: Option<string>, latest: nat)
    | Outside(control: Control)

  function Apply(c: Control, e: Event): Control {
    match e
    case Deliver(run, world) => Hook(c, run, world)
    case Start(newRun, latest, unread, treeActive) => StartTurn(c, newRun, latest, unread, treeActive)
    case Retry(newRun, alreadyRetried) => StartRetry(c, newRun, alreadyRetried)
    case BadPlan(run, started, latest) => PlanRepair(c, run, started, latest)
    case Outside(control) => control
  }

  /** The Run an event may put in charge. */
  function Introduced(e: Event): Option<string> {
    match e
    case Deliver(_, world) => world.evaluation
    case Start(newRun, _, _, _) => Some(newRun)
    case Retry(newRun, _) => Some(newRun)
    case BadPlan(_, started, _) => started
    case Outside(control) => if control.current != "" then Some(control.current) else None
  }

  /**
    Run ids are new when a Run is created, an evaluation Run is still running when
    it is put in charge, and a hook is delivered for a Run that has ended.
   */
  ghost predicate FenceStep(s: Fence, e: Event, s': Fence) {
    && (Introduced(e).Some? ==> Introduced(e).value !in s.ended && Introduced(e).value != "")
    && (e.Deliver? ==> e.run.id != "" && (e.world.evaluation.Some? ==> e.world.evaluation.value != e.run.id))
    && (e.Outside? ==>
        e.control.current == "" || e.control.current == s.control.current || e.control.current !in s.ended)
    && s'.control == Apply(s.control, e)
    && s'.ended == if e.Deliver? then s.ended + {e.run.id} else s.ended
  }

  /** A governed Run that is not in charge changes nothing, whatever its outcome. */
  lemma {:induction false} OnlyTheCurrentRunCounts(c: Control, run: Run, w: World)
    requires run.governed && c.current != run.id
    ensures Hook(c, run, w) == c
    ensures PlanRepair(c, run, None, 0) == c && Block(c, Some(run)) == c
  {
  }

  /** A hook that had an effect has taken its Run out of charge. */
  lemma {:induction false} EffectRelinquishes(c: Control, run: Run, w: World)
    requires run.governed && run.id != "" && Hook(c, run, w) != c
    requires w.evaluation.Some? ==> w.evaluation.value != run.id
    ensures c.current == run.id && Hook(c, run, w).current != run.id
  {
  }

  lemma {:induction false} StaysRelinquished(s: Fence, e: Event, s': Fence, id: string)
    requires FenceStep(s, e, s') && id != "" && id in s.ended && s.control.current != id
    ensures id in s'.ended && s'.control.current != id
  {
  }

  ghost predicate FenceRun(states: seq<Fence>, events: seq<Event>) {
    && |states| == |events| + 1
    && forall i | 0 <= i < |events| :: FenceStep(states[i], events[i], states[i + 1])
  }

  /**
    Delivering the hook of a governed Run again and again, with any other Runs'
    hooks in between, changes the control state at most once.
   */
  lemma {:induction false} HooksActOnce(states: seq<Fence>, events: seq<Event>, i: nat, j: nat)
    requires FenceRun(states, events) && i < j < |events|
    requires events[i].Deliver? && events[j].Deliver? && events[i].run.id == events[j].run.id
    requires events[i].run.governed && events[j].run.governed
    requires states[i + 1].control != states[i].control
    ensures states[j + 1].control == states[j].control
  {
    hide Hook, FenceStep;
    var run := events[i].run;
    DeliverMeans(states[i], events[i], states[i + 1]);
    DeliverMeans(states[j], events[j], states[j + 1]);
    EffectRelinquishes(states[i].control, run, events[i].world);
    StaysOut(states, events, i + 1, j, run.id);
    OnlyTheCurrentRunCounts(states[j].control, events[j].run, events[j].world);
  }

  lemma {:induction false} DeliverMeans(s: Fence, e: Event, s': Fence)
    requires FenceStep(s, e, s') && e.Deliver?
    ensures s'.control == Hook(s.control, e.run, e.world) && e.run.id in s'.ended && e.run.id != ""
    ensures e.world.evaluation.Some? ==> e.world.evaluation.value != e.run.id
  {
  }

  lemma {:induction false} StaysOut(states: seq<Fence>, events: seq<Event>, i: nat, j: nat, id: string)
    requires FenceRun(states, events) && i <= j <= |events| && id != ""
    requires id in states[i].ended && states[i].control.current != id
    ensures id in states[j].ended && states[j].control.current != id
    decreases j - i
  {
    hide FenceStep;
    if i < j {
      StaysRelinquished(states[i], events[i], states[i + 1], id);
      StaysOut(states, events, i + 1, j, id);
    }
  }

  /** The Coordinator has handed the control line on and the Run's end takes it back. */
  predicate ReleasesHandoff(c: Control, run: Run) {
    HandoffPending(c) && c.current == run.id && c.handoffSource == Some(run.id)
  }

  /** The retry of this very Run is due already. */
  predicate RetryStands(c: Control, run: Run) {
    c.status == WaitingRetry && c.current == "" && c.retryOf == run.id && c.action == RetryWorker
  }

  /** What the end of a Worker Run finds to change once nobody else is in charge. */
  predicate WorkerMoves(c: Control, run: Run, w: World) {
    match run.outcome
    case Succeeded =>
      && !(c.action == RetryWorker && c.retryOf == "")
      && (c.current != "" ||
          ((c.retryOf == "" || w.checkpointIsRuns) && (c.rounds > 0 || c.retryOf != "" || c.action != NoAction)))
    case Stopped => c.current == run.id
    case Failed(retryable) =>
      && !run.healOwned
      && (retryable && run.attempt < MAX_WORKER_ATTEMPTS ==> !RetryStands(c, run))
      && (retryable && run.attempt >= MAX_WORKER_ATTEMPTS && c.rounds == 0 ==> w.receiptOk)
  }

  /**
    The hook of a Worker Run is fenced only while some other Run is in charge:
    whatever its outcome, a delivery, first or repeated, changes the control state
    exactly under these conditions.
   */
  lemma {:induction false} WorkerReplaysAreNotFenced(c: Control, run: Run, w: World)
    requires !run.governed && run.id != ""
    ensures Hook(c, run, w) != c <==>
              && w.goalActive && !ExecutionStopped(c.status)
              && (ReleasesHandoff(c, run) ||
                  (&& !(run.settlement && RetryPending(c))
                   && (c.current == "" || c.current == run.id)
                   && WorkerMoves(c, run, w)))
  {
  }

  /** The end of this Worker Run opens the one recovery round. */
  predicate OpensRecovery(c: Control, run: Run, w: World) {
    && w.goalActive && !ExecutionStopped(c.status) && !ReleasesHandoff(c, run)
    && !(run.settlement && RetryPending(c)) && (c.current == "" || c.current == run.id)
    && run.outcome == Failed(true) && run.attempt >= MAX_WORKER_ATTEMPTS && !run.healOwned
    && c.rounds == 0 && w.receiptOk
  }

  /** A delivery that took the control line back from a handoff did not account for the Run itself. */
  predicate MovesAfterRelease(c: Control, run: Run, w: World) {
    && w.goalActive && !ExecutionStopped(c.status) && ReleasesHandoff(c, run)
    && WorkerMoves(c.(status := Queued, current := ""), run, w)
  }

  /**
    Delivered twice in a row, the hook of a Worker Run acts a second time exactly
    when the first delivery opened the recovery round, which the second one then
    finds used up and blocks the task, or only gave back the control line.
   */
  lemma {:induction false} SecondDeliveryActsExactly(c: Control, run: Run, w: World)
    requires !run.governed && run.id != ""
    ensures Hook(Hook(c, run, w), run, w) != Hook(c, run, w) <==>
              OpensRecovery(c, run, w) || MovesAfterRelease(c, run, w)
    ensures OpensRecovery(c, run, w) ==>
              && Hook(c, run, w).status == Queued && Hook(c, run, w).rounds == 1
              && Hook(Hook(c, run, w), run, w).status == Blocked
  {
    WorkerReplaysAreNotFenced(c, run, w);
    WorkerReplaysAreNotFenced(Hook(c, run, w), run, w);
    if w.goalActive && !ExecutionStopped(c.status) {
      if ReleasesHandoff(c, run) {
        FirstDeliveryReleases(c, run, w);
      } else if !(run.settlement && RetryPending(c)) && (c.current == "" || c.current == run.id) {
        FirstDeliveryIs(c, run, w);
        hide Hook;
      }
    }
  }

  lemma {:induction false} FirstDeliveryReleases(c: Control, run: Run, w: World)
    requires !run.governed && w.goalActive && !ExecutionStopped(c.status) && ReleasesHandoff(c, run)
    ensures Hook(c, run, w) == c.(status := Queued, current := "")
  {
  }

  lemma {:induction false} FirstDeliveryIs(c: Control, run: Run, w: World)
    requires !run.governed && w.goalActive && !ExecutionStopped(c.status) && !ReleasesHandoff(c, run)
    requires !(run.settlement && RetryPending(c)) && (c.current == "" || c.current == run.id)
    ensures Hook(c, run, w) == WorkerTerminal(c, run, w)
  {
  }

  // ----- failures run out -----

  /** A Worker Run that has not ended yet. */
  datatype Worker = Worker(id: string, attempt: nat)

  /** The control state, the Worker Runs still going, and which Runs were retried or are Coordinator turns. */
  datatype Line = Line(control: Control, live: seq<Worker>, attempts: map<string, nat>, retried: set<string>,
    turns: set<string>)

  /** Steps that need no user, no success and no new plan. */
  datatype Failure =
    | WorkerFails(index: nat, world: World, retryable: bool, healOwned: bool)
    | TurnFails(turn: Turn, retryable: bool, world: World)
    | PlanFails(started: Option<string>, latest: nat)
    | RetryStarts(newRun: string)
    | TurnStarts(newRun: string, latest: nat, unread: bool, treeActive: bool)

  function Removed(live: seq<Worker>, i: nat): seq<Worker>
    requires i < |live|
  {
    live[..i] + live[i + 1..]
  }

  function TurnRun(l: Line, turn: Turn, retryable: bool): Run {
    Run(l.control.current, true, turn, 1, Failed(retryable), false, false)
  }

  ghost predicate FailureStep(l: Line, e: Failure, l': Line) {
    match e
    case WorkerFails(i, world, retryable, healOwned) =>
      && i < |l.live|
      && var run := Run(l.live[i].id, false, NoTurn, l.live[i].attempt, Failed(retryable), healOwned, false);
         l' == l.(control := Hook(l.control, run, world), live := Removed(l.live, i))
    case TurnFails(turn, retryable, world) =>
      && l.control.current in l.turns && l.control.current != ""
      && l'.control != l.control
      && l' == l.(control := Hook(l.control, TurnRun(l, turn, retryable), world))
    case PlanFails(newRun, latest) =>
      && l.control.current in l.turns && l.control.current != ""
      && l'.control != l.control && !ExecutionStopped(l.control.status)
      && (newRun.Some? ==> newRun.value != "" && newRun.value !in l.turns && newRun.value !in l.attempts)
      && l' == l.(control := PlanRepair(l.control, TurnRun(l, OtherTurn, false), newRun, latest),
                  turns := if newRun.Some? then l.turns + {newRun.value} else l.turns)
    case RetryStarts(newRun) =>
      && newRun != "" && newRun !in l.turns && newRun !in l.attempts
      && l.control.retryOf in l.attempts && CanRetry(l.control, l.control.retryOf in l.retried)
      && var again := l.attempts[l.control.retryOf] + 1;
         l' == l.(control := StartRetry(l.control, newRun, false), live := l.live + [Worker(newRun, again)],
                  attempts := l.attempts[newRun := again], retried := l.retried + {l.control.retryOf})
    case TurnStarts(newRun, latest, unread, treeActive) =>
      && newRun != "" && newRun !in l.turns && newRun !in l.attempts
      && CanStart(l.control, unread, treeActive)
      && l' == l.(control := StartTurn(l.control, newRun, latest, unread, treeActive), turns := l.turns + {newRun})
  }

  ghost predicate LineOk(l: Line) {
    && (forall w | w in l.live ::
        w.id in l.attempts && l.attempts[w.id] == w.attempt && w.attempt >= 1 && w.id !in l.turns && w.id != "")
    && (forall id | id in l.attempts :: l.attempts[id] >= 1 && id !in l.turns)
    && (l.control.handoffSource.Some? ==> l.control.handoffSource.value in l.turns)
    && (l.control.action == RetryWorker && l.control.retryOf in l.attempts ==>
        l.attempts[l.control.retryOf] < MAX_WORKER_ATTEMPTS)
  }

  function Weight(attempt: nat): nat {
    if attempt <= 1 then 10 else if attempt == 2 then 6 else 1
  }

  function LiveWeight(live: seq<Worker>): nat {
    if live == [] then 0 else Weight(live[0].attempt) + LiveWeight(live[1..])
  }

  /** What a scheduled retry of a Run of that attempt may still cost. */
  function RetryWeight(attempt: nat): nat {
    if attempt <= 1 then 5 else 1
  }

  function Scheduled(l: Line): nat {
    if l.control.action == RetryWorker && l.control.current == "" && l.control.retryOf in l.attempts
    then RetryWeight(l.attempts[l.control.retryOf]) else 0
  }

  /** A Coordinator turn that is running, or may still be started. */
  function TurnWeight(l: Line): nat {
    var running := if l.control.failures == 0 then 3 else 1;
    if l.control.current == "" then running + 1 else if l.control.current in l.turns then running else 0
  }

  function Budget(c: Control): nat {
    (if c.rounds == 0 then 6 else 0) +
    (if c.repair == RepairExhausted || c.repairAttempt >= MAX_PLAN_REPAIRS then 0
     else 2 * (MAX_PLAN_REPAIRS - c.repairAttempt))
  }

  /** An accepted handoff still waiting for its source Run to end. */
  function HandoffWeight(c: Control): nat {
    if HandoffPending(c) && c.handoffSource == Some(c.current) then 2 else 0
  }

  /** What the measure counts besides the Worker Runs still going. */
  function Rest(l: Line): nat {
    if ExecutionStopped(l.control.status) then 0
    else Scheduled(l) + TurnWeight(l) + Budget(l.control) + HandoffWeight(l.control)
  }

  /** Attempts, recovery rounds, own failures and plan repairs in one number. */
  function Measure(l: Line): nat {
    LiveWeight(l.live) + Rest(l)
  }

  lemma {:induction false} RemovedWeighs(live: seq<Worker>, i: nat)
    requires i < |live|
    ensures LiveWeight(live) == LiveWeight(Removed(live, i)) + Weight(live[i].attempt)
  {
    if i == 0 {
      assert Removed(live, 0) == live[1..];
    } else {
      RemovedWeighs(live[1..], i - 1);
      assert Removed(live, i) == [live[0]] + Removed(live[1..], i - 1);
    }
  }

  lemma {:induction false} AddedWeighs(live: seq<Worker>, w: Worker)
    ensures LiveWeight(live + [w]) == LiveWeight(live) + Weight(w.attempt)
  {
    if live == [] {
      assert live + [w] == [w];
    } else {
      AddedWeighs(live[1..], w);
      assert (live + [w])[1..] == live[1..] + [w];
    }
  }

  lemma {:induction false} WorkerFailureDecreases(l: Line, e: Failure, l': Line)
    requires LineOk(l) && FailureStep(l, e, l') && e.WorkerFails?
    ensures LineOk(l') && Rest(l') < Rest(l) + Weight(l.live[e.index].attempt)
  {
    var w := l.live[e.index];
    assert w in l.live;
    assert forall v | v in l'.live :: v in l.live;
  }

  lemma {:induction false} TurnFailureDecreases(l: Line, e: Failure, l': Line)
    requires LineOk(l) && FailureStep(l, e, l') && e.TurnFails?
    ensures LineOk(l') && Rest(l') < Rest(l)
  {
  }

  lemma {:induction false} PlanFailureDecreases(l: Line, e: Failure, l': Line)
    requires LineOk(l) && FailureStep(l, e, l') && e.PlanFails?
    ensures LineOk(l') && Rest(l') < Rest(l)
  {
  }

  lemma {:induction false} RetryDecreases(l: Line, e: Failure, l': Line)
    requires LineOk(l) && FailureStep(l, e, l') && e.RetryStarts?
    ensures LineOk(l') && Rest(l') + Weight(l.attempts[l.control.retryOf] + 1) < Rest(l)
  {
  }

  lemma {:induction false} TurnStartDecreases(l: Line, e: Failure, l': Line)
    requires LineOk(l) && FailureStep(l, e, l') && e.TurnStarts?
    ensures LineOk(l') && Rest(l') < Rest(l)
  {
  }

  /** Every failure step uses up some of the budget. */
  lemma {:induction false} FailuresDecrease(l: Line, e: Failure, l': Line)
    requires LineOk(l) && FailureStep(l, e, l')
    ensures LineOk(l') && Measure(l') < Measure(l)
  {
    hide LineOk, Hook, PlanRepair, StartTurn, StartRetry, Weight, Scheduled, TurnWeight, Budget, HandoffWeight;
    match e
    case WorkerFails(i, _, _, _) =>
      RemovedWeighs(l.live, i);
      WorkerFailureDecreases(l, e, l');
    case TurnFails(_, _, _) =>
      TurnFailureDecreases(l, e, l');
    case PlanFails(_, _) =>
      PlanFailureDecreases(l, e, l');
    case RetryStarts(newRun) =>
      AddedWeighs(l.live, Worker(newRun, l.attempts[l.control.retryOf] + 1));
      RetryDecreases(l, e, l');
    case TurnStarts(_, _, _, _) =>
      TurnStartDecreases(l, e, l');
  }

  ghost predicate FailureRun(lines: seq<Line>, events: seq<Failure>) {
    && |lines| == |events| + 1
    && forall i | 0 <= i < |events| :: FailureStep(lines[i], events[i], lines[i + 1])
  }

  /** So a line on which nothing succeeds and nobody intervenes stops within its budget. */
  lemma {:induction false} FailuresRunOut(lines: seq<Line>, events: seq<Failure>)
    requires FailureRun(lines, events) && LineOk(lines[0])
    ensures LineOk(lines[|events|]) && |events| + Measure(lines[|events|]) <= Measure(lines[0])
  {
    var n := |events|;
    if n > 0 {
      FailuresRunOut(lines[..n], events[..n - 1]);
      FailuresDecrease(lines[n - 1], events[n - 1], lines[n]);
    }
  }

  // ----- replayed Worker hooks -----

  /**
    The recovery loop delivers the hook of an ended Worker again; it is fenced only
    while another Run is current. The facts it reads may differ each time.
   */
  datatype Delivery = First(e: Failure) | Again(worker: string, world: World, retryable: bool, healOwned: bool)

  ghost predicate DeliveryStep(l: Line, d: Delivery, l': Line) {
    match d
    case First(e) => FailureStep(l, e, l')
    case Again(id, world, retryable, healOwned) =>
      && id in l.attempts && id != "" && (forall w | w in l.live :: w.id != id)
      && var run := Run(id, false, NoTurn, l.attempts[id], Failed(retryable), healOwned, false);
         l' == l.(control := Hook(l.control, run, world))
  }

  ghost predicate RetriesOk(l: Line) {
    l.retried <= l.attempts.Keys
  }

  /** The Worker Runs of one attempt number that have not been retried. */
  function Unretried(l: Line, attempt: nat): set<string> {
    set id | id in l.attempts && id !in l.retried && l.attempts[id] == attempt
  }

  /** How many more retries the Worker Runs so far allow, whatever order their hooks come in. */
  function RetriesLeft(l: Line): nat {
    2 * |Unretried(l, 1)| + |Unretried(l, 2)|
  }

  /**
    How many more Coordinator turns may start: one that is due, one after a first failure, one for each repair
    left.
   */
  function TurnsLeft(l: Line): nat {
    var c := l.control;
    if ExecutionStopped(c.status) then 0
    else
      (if c.current in l.turns then 0 else 1) + (if c.failures == 0 then 1 else 0)
      + (if c.repair == RepairExhausted || c.repairAttempt >= MAX_PLAN_REPAIRS then 0
        else MAX_PLAN_REPAIRS - c.repairAttempt)
      + (if HandoffPending(c) && c.handoffSource == Some(c.current) then 1 else 0)
  }

  /** The Runs a step starts. */
  function Started(d: Delivery, after: Control): nat {
    match d
    case First(RetryStarts(_)) => 1
    case First(TurnStarts(_, _, _, _)) => 1
    case First(PlanFails(started, _)) => if started.Some? && after.current == started.value then 1 else 0
    case _ => 0
  }

  lemma {:induction false} AgainKeepsLine(l: Line, d: Delivery, l': Line)
    requires LineOk(l) && RetriesOk(l) && d.Again? && DeliveryStep(l, d, l')
    ensures LineOk(l') && RetriesOk(l')
  {
  }

  /** A Worker's hook, first or repeated, never makes room for another Coordinator turn. */
  lemma {:induction false} HookAllowsNoTurn(l: Line, run: Run, w: World)
    requires LineOk(l) && !run.governed && run.id != "" && run.id !in l.turns
    requires l.control.current != "" || "" !in l.turns
    ensures TurnsLeft(l.(control := Hook(l.control, run, w))) <= TurnsLeft(l)
  {
  }

  lemma {:induction false} TurnStepsPay(l: Line, e: Failure, l': Line)
    requires LineOk(l) && "" !in l.turns && FailureStep(l, e, l') && (e.TurnFails? || e.PlanFails? || e.TurnStarts?)
    ensures Started(First(e), l'.control) + TurnsLeft(l') <= TurnsLeft(l)
    ensures "" !in l'.turns && l'.attempts == l.attempts && l'.retried == l.retried
  {
  }

  /** A retry takes its Run off the ones that may be retried and adds one of the next attempt. */
  lemma {:induction false} RetryMoves(l: Line, newRun: string, l': Line)
    requires LineOk(l) && RetriesOk(l) && FailureStep(l, RetryStarts(newRun), l')
    ensures RetriesOk(l') && l.control.retryOf in l.attempts && l.control.retryOf !in l.retried
    ensures newRun !in l.attempts && newRun !in l.retried
    ensures 1 <= l.attempts[l.control.retryOf] < MAX_WORKER_ATTEMPTS
    ensures l'.attempts == l.attempts[newRun := l.attempts[l.control.retryOf] + 1]
    ensures l'.retried == l.retried + {l.control.retryOf}
  {
  }

  /** A retry uses up one of the retries left. */
  lemma {:induction false} RetryPays(l: Line, newRun: string, l': Line)
    requires LineOk(l) && RetriesOk(l) && FailureStep(l, RetryStarts(newRun), l')
    ensures 1 + RetriesLeft(l') <= RetriesLeft(l) && RetriesOk(l')
  {
    RetryMoves(l, newRun, l');
    hide FailureStep, LineOk, RetriesOk;
    UnretriedMoves(l, newRun, l', 1);
    UnretriedMoves(l, newRun, l', 2);
    hide Unretried;
  }

  lemma {:induction false} UnretriedMoves(l: Line, newRun: string, l': Line, n: nat)
    requires l.control.retryOf in l.attempts && l.control.retryOf !in l.retried
    requires newRun !in l.attempts && newRun !in l.retried
    requires l'.attempts == l.attempts[newRun := l.attempts[l.control.retryOf] + 1]
    requires l'.retried == l.retried + {l.control.retryOf}
    ensures |Unretried(l', n)| == |Unretried(l, n)|
              - (if l.attempts[l.control.retryOf] == n then 1 else 0)
              + (if l.attempts[l.control.retryOf] + 1 == n then 1 else 0)
  {
    var parent, rest := l.control.retryOf, Unretried(l, n) - {l.control.retryOf};
    var added: set<string> := if l.attempts[parent] + 1 == n then {newRun} else {};
    forall id
      ensures id in Unretried(l', n) <==> id in rest || id in added
    {
      assert id != newRun && id in l'.attempts ==> id in l.attempts && l'.attempts[id] == l.attempts[id];
    }
    assert Unretried(l', n) == rest + added;
    assert newRun !in rest;
  }

  lemma {:induction false} RetryAllowsNoTurn(l: Line, newRun: string, l': Line)
    requires LineOk(l) && "" !in l.turns && FailureStep(l, RetryStarts(newRun), l')
    ensures TurnsLeft(l') <= TurnsLeft(l) && l'.turns == l.turns
  {
  }

  /** What every step leaves: the Runs it starts are paid for. */
  lemma {:induction false} StartsArePaid(l: Line, d: Delivery, l': Line)
    requires LineOk(l) && RetriesOk(l) && "" !in l.turns && DeliveryStep(l, d, l')
    ensures LineOk(l') && RetriesOk(l') && "" !in l'.turns
    ensures Started(d, l'.control) + RetriesLeft(l') + TurnsLeft(l') <= RetriesLeft(l) + TurnsLeft(l)
  {
    hide LineOk, Hook, PlanRepair, StartTurn, StartRetry, TurnsLeft, RetriesLeft;
    match d
    case Again(id, world, retryable, healOwned) =>
      AgainKeepsLine(l, d, l');
      KnownIsNoTurn(l, id);
      HookAllowsNoTurn(l, Run(id, false, NoTurn, l.attempts[id], Failed(retryable), healOwned, false), world);
      SameRetries(l, l');
    case First(e) =>
      FailuresDecrease(l, e, l');
      match e
      case WorkerFails(i, world, retryable, healOwned) =>
        KnownIsNoTurn(l, l.live[i].id);
        LiveIsNoTurn(l, i);
        HookAllowsNoTurn(l, Run(l.live[i].id, false, NoTurn, l.live[i].attempt, Failed(retryable), healOwned, false),
          world);
        SameTurnsLeft(l.(control := l'.control), l');
        SameRetries(l, l');
      case RetryStarts(newRun) =>
        RetryPays(l, newRun, l');
        RetryAllowsNoTurn(l, newRun, l');
      case _ =>
        TurnStepsPay(l, e, l');
        SameRetries(l, l');
  }

  lemma {:induction false} KnownIsNoTurn(l: Line, id: string)
    requires LineOk(l)
    ensures id in l.attempts ==> id !in l.turns
  {
  }

  lemma {:induction false} LiveIsNoTurn(l: Line, i: nat)
    requires LineOk(l) && i < |l.live|
    ensures l.live[i].id !in l.turns && l.live[i].id != ""
  {
    assert l.live[i] in l.live;
  }

  lemma {:induction false} SameRetries(l: Line, l': Line)
    requires l'.attempts == l.attempts && l'.retried == l.retried
    ensures RetriesLeft(l') == RetriesLeft(l)
  {
  }

  lemma {:induction false} SameTurnsLeft(l: Line, l': Line)
    requires l'.control == l.control && l'.turns == l.turns
    ensures TurnsLeft(l') == TurnsLeft(l)
  {
  }

  ghost predicate DeliveryRun(lines: seq<Line>, steps: seq<Delivery>) {
    && |lines| == |steps| + 1
    && forall i | 0 <= i < |steps| :: DeliveryStep(lines[i], steps[i], lines[i + 1])
  }

  function StartsIn(lines: seq<Line>, steps: seq<Delivery>): nat
    requires |lines| == |steps| + 1
  {
    if steps == [] then 0
    else StartsIn(lines[..|steps|], steps[..|steps| - 1]) + Started(steps[|steps| - 1], lines[|steps|].control)
  }

  /** However often ended Workers' hooks are replayed, only boundedly many Runs are ever started without a success. */
  lemma {:induction false} StartsRunOut(lines: seq<Line>, steps: seq<Delivery>)
    requires DeliveryRun(lines, steps) && LineOk(lines[0]) && RetriesOk(lines[0]) && "" !in lines[0].turns
    ensures LineOk(lines[|steps|]) && RetriesOk(lines[|steps|]) && "" !in lines[|steps|].turns
    ensures StartsIn(lines, steps) + RetriesLeft(lines[|steps|]) + TurnsLeft(lines[|steps|])
            <= RetriesLeft(lines[0]) + TurnsLeft(lines[0])
  {
    var n := |steps|;
    if n > 0 {
      hide DeliveryStep, LineOk, RetriesOk, RetriesLeft, TurnsLeft, Started;
      StartsRunOut(lines[..n], steps[..n - 1]);
      StartsArePaid(lines[n - 1], steps[n - 1], lines[n]);
    }
  }

  /**
    A replay while another Worker's retry is due puts its own Run there, which was retried before: nothing is
    due any more.
   */
  lemma {:induction false} ReplayLosesTheRetry(c: Control, run: Run, w: World, newRun: string)
    requires !run.governed && run.outcome == Failed(true) && run.attempt < MAX_WORKER_ATTEMPTS && !run.healOwned
    requires w.goalActive && !run.settlement && CanRetry(c, false) && c.retryOf != run.id
    ensures CanRetry(Hook(c, run, w), false) && Hook(c, run, w).retryOf == run.id
    ensures StartRetry(Hook(c, run, w), newRun, true) == Hook(c, run, w)
  {
  }

  function ExampleWorker(id: string): Run {
    Run(id, false, NoTurn, 1, Failed(true), false, false)
  }

  function ExampleWorld(): World {
    World(true, false, false, NoPlan, None, false, false, false, false, true, true, true)
  }

  /**
    Two Workers fail after the first one's retry has succeeded; replaying the first one's hook loses the
    second's retry.
   */
  lemma {:induction false} ReplayExample(c: Control)
    requires c == Control(Running, "", NoAction, "", 0, false, 0, NoRepair, 0, None, "", 1, 0)
    ensures var w := ExampleWorld();
            var retrying := StartRetry(Hook(c, ExampleWorker("w1"), w), "w1b", false);
            var back := Hook(retrying, Run("w1b", false, NoTurn, 2, Succeeded, false, false), w);
            var due := Hook(back, ExampleWorker("w2"), w);
            var replayed := Hook(due, ExampleWorker("w1"), w);
            && retrying.current == "w1b" && CanRetry(due, false) && due.retryOf == "w2"
            && replayed != due && replayed.retryOf == "w1" && !CanRetry(replayed, true)
  {
    assert "w1"[1] != "w2"[1];
  }

  /**
    A Worker runs out of attempts: its last Run's hook opens the recovery round,
    and the same hook delivered once more blocks the task instead of leaving the
    Coordinator to plan anew.
   */
  lemma {:induction false} BlockingReplayExample(c: Control)
    requires c == Control(Running, "", NoAction, "", 0, false, 0, NoRepair, 0, None, "", 1, 0)
    ensures var w := ExampleWorld();
            var second := StartRetry(Hook(c, ExampleWorker("w1"), w), "w2", false);
            var third := StartRetry(Hook(second, ExampleWorker("w2").(attempt := 2), w), "w3", false);
            var last := ExampleWorker("w3").(attempt := 3);
            var recovering := Hook(third, last, w);
            && second.current == "w2" && third.current == "w3"
            && OpensRecovery(third, last, w) && CanStart(recovering, false, false)
            && Hook(recovering, last, w).status == Blocked
  {
  }

  // ----- the comment watermark -----

  /** The comment revisions after `above`, up to `upto`, read by one Coordinator Run. */
  datatype Snapshot = Snapshot(run: string, above: nat, upto: nat)

  /** Comments of the root task by revision, true when they demand an answer; and what each Run was given. */
  datatype Desk = Desk(control: Control, comments: seq<bool>, snapshots: seq<Snapshot>)

  predicate Unread(d: Desk) {
    exists r :: d.control.consumed <= r < |d.comments| && d.comments[r]
  }

  datatype DeskEvent = Comment(actionable: bool) | Move(e: Event)

  /** The Run that an event starts with a comment snapshot, if it starts one. */
  function Briefed(c: Control, e: Event): Option<string> {
    match e
    case Start(newRun, _, unread, treeActive) => if CanStart(c, unread, treeActive) then Some(newRun) else None
    case BadPlan(run, started, _) =>
      if c.current != run.id || c.status == Completed || c.status == Cancelled || c.repair == RepairExhausted
         || c.repairAttempt >= MAX_PLAN_REPAIRS then None
      else started
    case _ => None
  }

  ghost predicate DeskStep(d: Desk, e: DeskEvent, d': Desk) {
    match e
    case Comment(actionable) => d' == d.(comments := d.comments + [actionable])
    case Move(m) =>
      && (m.Deliver? ==> m.world.unread == Unread(d))
      && (m.Start? ==> m.unread == Unread(d) && m.latest == |d.comments|)
      && (m.BadPlan? ==> m.latest == |d.comments|)
      && (m.Outside? ==>
          m.control.consumed == d.control.consumed
          && (m.control.status == WaitingUser ==> d.control.status == WaitingUser))
      && d'.control == Apply(d.control, m) && d'.comments == d.comments
      && d'.snapshots == match Briefed(d.control, m) {
                           case None => d.snapshots
                           case Some(run) => d.snapshots + [Snapshot(run, d.control.consumed, |d.comments|)]
                         }
  }

  /** Snapshots follow one another without gap or overlap. */
  predicate Chain(snapshots: seq<Snapshot>) {
    snapshots == [] ||
    var n := |snapshots| - 1;
    Chain(snapshots[..n]) && snapshots[n].above == Upto(snapshots[..n]) && snapshots[n].above <= snapshots[n].upto
  }

  function Upto(snapshots: seq<Snapshot>): nat {
    if snapshots == [] then 0 else snapshots[|snapshots| - 1].upto
  }

  lemma {:induction false} ChainGrows(snapshots: seq<Snapshot>, next: Snapshot)
    requires Chain(snapshots) && next.above == Upto(snapshots) && next.above <= next.upto
    ensures Chain(snapshots + [next]) && Upto(snapshots + [next]) == next.upto
  {
    assert (snapshots + [next])[..|snapshots|] == snapshots;
  }

  lemma {:induction false} UptoGrows(snapshots: seq<Snapshot>, i: nat)
    requires Chain(snapshots) && i < |snapshots|
    ensures snapshots[i].upto <= Upto(snapshots)
  {
    var n := |snapshots| - 1;
    if i < n { UptoGrows(snapshots[..n], i); }
  }

  /** The last snapshot ends at the watermark. */
  ghost predicate Adjacent(d: Desk) {
    && d.control.consumed <= |d.comments|
    && Chain(d.snapshots) && d.control.consumed == Upto(d.snapshots)
  }

  lemma {:induction false} BriefingMoves(c: Control, m: Event)
    ensures Briefed(c, m).None? && !m.Outside? ==> Apply(c, m).consumed == c.consumed
    ensures Briefed(c, m).Some? && m.Start? ==> Apply(c, m).consumed == m.latest
    ensures Briefed(c, m).Some? && m.BadPlan? ==> Apply(c, m).consumed == m.latest
    ensures Briefed(c, m).Some? ==> m.Start? || m.BadPlan?
  {
    if m.Deliver? {
      hide Hook;
      HookKeepsWatermark(c, m.run, m.world);
    }
  }

  lemma {:induction false} HookKeepsWatermark(c: Control, run: Run, w: World)
    ensures Hook(c, run, w).consumed == c.consumed
  {
  }

  lemma {:induction false} StaysAdjacent(d: Desk, e: DeskEvent, d': Desk)
    requires Adjacent(d) && DeskStep(d, e, d')
    ensures Adjacent(d')
  {
    hide Apply, Briefed, Chain;
    match e
    case Comment(_) =>
    case Move(m) =>
      BriefingMoves(d.control, m);
      OutsideApplies(d.control, m);
      if Briefed(d.control, m).Some? {
        ChainGrows(d.snapshots, Snapshot(Briefed(d.control, m).value, d.control.consumed, |d.comments|));
      }
  }

  lemma {:induction false} OutsideApplies(c: Control, m: Event)
    ensures m.Outside? ==> Apply(c, m) == m.control && Briefed(c, m).None?
  {
  }

  ghost predicate DeskRun(desks: seq<Desk>, events: seq<DeskEvent>) {
    && |desks| == |events| + 1
    && desks[0].control.consumed == 0 && desks[0].snapshots == []
    && forall i | 0 <= i < |events| :: DeskStep(desks[i], events[i], desks[i + 1])
  }

  lemma {:induction false} AlwaysAdjacent(desks: seq<Desk>, events: seq<DeskEvent>)
    requires DeskRun(desks, events)
    ensures Adjacent(desks[|events|])
  {
    hide DeskStep, Adjacent;
    var n := |events|;
    if n == 0 {
      NothingRead(desks[0]);
    } else {
      AlwaysAdjacent(desks[..n], events[..n - 1]);
      StaysAdjacent(desks[n - 1], events[n - 1], desks[n]);
    }
  }

  lemma {:induction false} NothingRead(d: Desk)
    requires d.control.consumed == 0 && d.snapshots == []
    ensures Adjacent(d)
  {
  }

  predicate Holds(s: Snapshot, r: nat) {
    s.above < r <= s.upto
  }

  /** Every comment up to the watermark was given to exactly one Coordinator Run. */
  lemma {:induction false} EachCommentReachesOneRun(desks: seq<Desk>, events: seq<DeskEvent>, r: nat)
    requires DeskRun(desks, events) && 1 <= r <= desks[|events|].control.consumed
    ensures exists i :: 0 <= i < |desks[|events|].snapshots| && Holds(desks[|events|].snapshots[i], r)
    ensures forall i, j | 0 <= i < j < |desks[|events|].snapshots| ::
              !(Holds(desks[|events|].snapshots[i], r) && Holds(desks[|events|].snapshots[j], r))
  {
    hide DeskStep;
    AlwaysAdjacent(desks, events);
    var snapshots := desks[|events|].snapshots;
    FindSnapshot(snapshots, r);
    forall i, j | 0 <= i < j < |snapshots|
      ensures !(Holds(snapshots[i], r) && Holds(snapshots[j], r))
    {
      LaterStartsAbove(snapshots, i, j);
    }
  }

  lemma {:induction false} FindSnapshot(snapshots: seq<Snapshot>, r: nat)
    requires Chain(snapshots) && snapshots != [] && 1 <= r <= snapshots[|snapshots| - 1].upto
    ensures exists i :: 0 <= i < |snapshots| && Holds(snapshots[i], r)
  {
    var last := |snapshots| - 1;
    if r > snapshots[last].above {
      assert Holds(snapshots[last], r);
    } else {
      FindSnapshot(snapshots[..last], r);
      var i :| 0 <= i < last && Holds(snapshots[..last][i], r);
      assert Holds(snapshots[i], r);
    }
  }

  lemma {:induction false} LaterStartsAbove(snapshots: seq<Snapshot>, i: nat, j: nat)
    requires Chain(snapshots) && i < j < |snapshots|
    ensures snapshots[i].upto <= snapshots[j].above
  {
    var n := |snapshots| - 1;
    if j < n {
      LaterStartsAbove(snapshots[..n], i, j);
    } else {
      UptoGrows(snapshots[..n], i);
    }
  }

  lemma {:induction false} WaitingComesFromHooks(c: Control, m: Event)
    requires c.status != WaitingUser && Apply(c, m).status == WaitingUser
    ensures m.Outside? || (m.Deliver? && !m.world.unread && Apply(c, m).consumed == c.consumed)
  {
  }

  /** The user is never asked while a comment that demands an answer is unread. */
  lemma {:induction false} NeverWaitsOverUnread(d: Desk, e: DeskEvent, d': Desk)
    requires DeskStep(d, e, d') && d.control.status != WaitingUser && d'.control.status == WaitingUser
    ensures !Unread(d')
  {
    hide Hook, StartTurn, StartRetry, PlanRepair, Briefed;
    WaitingComesFromHooks(d.control, e.e);
  }
}
