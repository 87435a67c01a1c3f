/**
  The Plans of one root task: submission, step execution, approval gates, the
  token budget and supersession (internal/application/plan.go, runs.go,
  internal/domain/plan.go). Each event is one store transaction.
 */
module PlanExecution {
  import opened Wrappers
  import D = PlanDecisions

  datatype PlanStatus = PlanActive | PlanWaiting | PlanFinished | PlanCancelled | PlanFailed

  /** A defer is a join on all children, so both are one waiting verb. */
  datatype Verb = Consult | Dispatch | Wait | Finish(evaluation: bool)

  datatype StepStatus = StepPending | StepExecuted | StepSkipped | StepFailed

  datatype StepRow = StepRow(verb: Verb, status: StepStatus)

  datatype ApprovalStatus = ApprovalPending | ApprovalApproved | ApprovalRejected | ApprovalExpired

  /** The approval a manually approved dispatch step waits for. */
  datatype Gate = Gate(step: nat, status: ApprovalStatus)

  datatype PlanRow = PlanRow(status: PlanStatus, steps: seq<StepRow>, gates: seq<Gate>, supersededBy: Option<nat>)

  /** The Run one step has started. */
  datatype Child = Child(plan: nat, step: nat)

  /**
    The Plans of the root, oldest first, the Runs their steps have started, and
    the Plans whose children were once seen to be quiet over budget.
   */
  datatype Desk = Desk(plans: seq<PlanRow>, children: seq<Child>, noticed: set<nat>)

  const EMPTY_DESK := Desk([], [], {})

  /**
    What one step meets when it is reached: whether its agent needs approval,
    and whether knowledge is found, the Run can be created, the wait has an exit.
   */
  datatype Circumstance = Circumstance(gated: bool, fine: bool)

  datatype Outcome = Outcome(plan: PlanRow, started: seq<nat>)

  predicate PlanEnds(s: PlanStatus) { s in {PlanFinished, PlanCancelled, PlanFailed} }

  predicate StartsRun(v: Verb) { v == Dispatch || v == Finish(true) }

  predicate EndsBatch(v: Verb) { v.Wait? || v.Finish? }

  function Met(world: seq<Circumstance>, i: nat): Circumstance {
    if i < |world| then world[i] else Circumstance(false, true)
  }

  // ----- execution of one batch -----

  function Marked(steps: seq<StepRow>, i: nat, s: StepStatus): (r: seq<StepRow>)
    ensures |r| == |steps|
  {
    if i < |steps| then steps[i := steps[i].(status := s)] else steps
  }

  function SkippedFrom(steps: seq<StepRow>, from: nat): (r: seq<StepRow>)
    ensures |r| == |steps|
  {
    seq(|steps|, k requires 0 <= k < |steps| =>
      if k >= from && steps[k].status == StepPending then steps[k].(status := StepSkipped) else steps[k])
  }

  /** The batch stops behind step i, which has been executed. */
  function StoppedAfter(p: PlanRow, i: nat, s: PlanStatus): PlanRow {
    p.(status := s, steps := SkippedFrom(Marked(p.steps, i, StepExecuted), i + 1))
  }

  function FailedAt(p: PlanRow, i: nat): PlanRow {
    p.(status := PlanFailed, steps := SkippedFrom(Marked(p.steps, i, StepFailed), i + 1))
  }

  /**
    Where the steps from i onward take an active Plan, and which of them start a
    Run; None when the transaction rolls back. The free step passes its gate.
   */
  function Executed(p: PlanRow, world: seq<Circumstance>, i: nat, free: Option<nat>): Option<Outcome>
    decreases |p.steps| - i
  {
    if i >= |p.steps| then Some(Outcome(p.(status := PlanFinished), []))
    else
      var met := Met(world, i);
      var done := p.(steps := Marked(p.steps, i, StepExecuted));
      match p.steps[i].verb
      case Consult =>
        if met.fine then Executed(done, world, i + 1, free) else Some(Outcome(FailedAt(p, i), []))
      case Dispatch =>
        if met.gated && free != Some(i) then
          Some(Outcome(p.(status := PlanWaiting, gates := p.gates + [Gate(i, ApprovalPending)]), []))
        else if !met.fine then None
        else
          (match Executed(done, world, i + 1, free)
           case None => None
           case Some(o) => Some(Outcome(o.plan, [i] + o.started)))
      case Wait =>
        if met.fine then Some(Outcome(StoppedAfter(p, i, PlanWaiting), [])) else None
      case Finish(evaluation) =>
        if evaluation && !met.fine then None
        else Some(Outcome(StoppedAfter(p, i, PlanFinished), if evaluation then [i] else []))
  }

  // ----- the transactions -----

  function Expired(a: ApprovalStatus): ApprovalStatus { if a == ApprovalPending then ApprovalExpired else a }

  function ExpiredGates(gates: seq<Gate>): (r: seq<Gate>)
    ensures |r| == |gates|
  {
    seq(|gates|, i requires 0 <= i < |gates| => gates[i].(status := Expired(gates[i].status)))
  }

  /** A Plan closed from outside: its remaining steps are skipped and its gates expire. */
  function ClosedPlan(p: PlanRow, s: PlanStatus): PlanRow {
    p.(status := s, steps := SkippedFrom(p.steps, 0), gates := ExpiredGates(p.gates))
  }

  /** The newest open Plan of the root, if any: the only one a transaction looks up. */
  function OpenPlan(plans: seq<PlanRow>): (k: Option<nat>)
    ensures k.Some? ==> k.value < |plans| && !PlanEnds(plans[k.value].status)
    ensures k.Some? ==> forall j :: k.value < j < |plans| ==> PlanEnds(plans[j].status)
    ensures k.None? ==> forall j :: 0 <= j < |plans| ==> PlanEnds(plans[j].status)
  {
    if plans == [] then None
    else if !PlanEnds(plans[|plans| - 1].status) then Some(|plans| - 1)
    else OpenPlan(plans[..|plans| - 1])
  }

  /** The last dispatch of a coordinated Plan needs a wait behind it, with no finish in between. */
  predicate BarrierAfter(verbs: seq<Verb>, d: nat) {
    exists w :: d < w < |verbs| && verbs[w].Wait? && forall j :: d < j < w ==> !verbs[j].Finish?
  }

  predicate LastDispatch(verbs: seq<Verb>, d: nat) {
    d < |verbs| && verbs[d].Dispatch? && forall j :: d < j < |verbs| ==> !verbs[j].Dispatch?
  }

  predicate BarrierOk(verbs: seq<Verb>) {
    forall d :: 0 <= d < |verbs| && LastDispatch(verbs, d) ==> BarrierAfter(verbs, d)
  }

  function FreshPlan(verbs: seq<Verb>): PlanRow {
    PlanRow(PlanActive, seq(|verbs|, i requires 0 <= i < |verbs| => StepRow(verbs[i], StepPending)), [], None)
  }

  function ChildrenOf(plan: nat, started: seq<nat>): (r: seq<Child>)
    ensures |r| == |started|
  {
    seq(|started|, i requires 0 <= i < |started| => Child(plan, started[i]))
  }

  /** A waiting Plan gives way to the new one, an active one refuses it. */
  function Superseded(plans: seq<PlanRow>): Option<seq<PlanRow>> {
    match OpenPlan(plans)
    case None => Some(plans)
    case Some(k) =>
      if plans[k].status == PlanActive then None
      else Some(plans[k := ClosedPlan(plans[k], PlanFinished).(supersededBy := Some(|plans|))])
  }

  function Submitted(d: Desk, verbs: seq<Verb>, coordinated: bool, world: seq<Circumstance>): Option<Desk> {
    if verbs == [] || (coordinated && !BarrierOk(verbs)) || Superseded(d.plans).None? then None
    else
      match Executed(FreshPlan(verbs), world, 0, None)
      case None => None
      case Some(o) =>
        Some(d.(plans := Superseded(d.plans).value + [o.plan],
                children := d.children + ChildrenOf(|d.plans|, o.started)))
  }

  /** The decision on a gate, and what it does to a Plan that is still waiting. */
  function Resolved(d: Desk, k: nat, g: nat, approved: bool, allowed: bool, world: seq<Circumstance>): Option<Desk> {
    if k >= |d.plans| || g >= |d.plans[k].gates| then None
    else
      var p, gate := d.plans[k], d.plans[k].gates[g];
      var decision := if approved then ApprovalApproved else ApprovalRejected;
      if gate.status == decision then Some(d)
      else if gate.status != ApprovalPending then None
      else
        var decided := p.(gates := p.gates[g := gate.(status := decision)]);
        if p.status != PlanWaiting then Some(d.(plans := d.plans[k := decided]))
        else if !allowed then None
        else if !approved then
          if gate.step < |p.steps| then Some(d.(plans := d.plans[k := FailedAt(decided, gate.step)])) else None
        else
          match Executed(decided.(status := PlanActive), world, gate.step, Some(gate.step))
          case None => None
          case Some(o) =>
            Some(d.(plans := d.plans[k := o.plan], children := d.children + ChildrenOf(k, o.started)))
  }

  /** The Plan is suspended at an executed defer or join, not at a gate. */
  predicate SuspendedAtWait(p: PlanRow) {
    p.status == PlanWaiting && exists i ::
      0 <= i < |p.steps| && p.steps[i].verb.Wait? && p.steps[i].status == StepExecuted
  }

  /** maybeAdvancePlans reads the Plan, failPlanForBudget fails it later, in a transaction of its own. */
  function Noticed(d: Desk, k: nat): Option<Desk> {
    if OpenPlan(d.plans) == Some(k) && SuspendedAtWait(d.plans[k]) then Some(d.(noticed := d.noticed + {k})) else None
  }

  function OverBudget(d: Desk, k: nat): Option<Desk> {
    if k !in d.noticed || k >= |d.plans| then None
    else if PlanEnds(d.plans[k].status) then Some(d)
    else Some(d.(plans := d.plans[k := d.plans[k].(status := PlanFailed)]))
  }

  function CancelledPlans(plans: seq<PlanRow>): seq<PlanRow> {
    match OpenPlan(plans)
    case None => plans
    case Some(k) => plans[k := ClosedPlan(plans[k], PlanCancelled)]
  }

  datatype Event =
    | Submit(verbs: seq<Verb>, coordinated: bool, world: seq<Circumstance>)
    | Resolve(plan: nat, gate: nat, approved: bool, allowed: bool, world: seq<Circumstance>)
    | NoticeQuiet(plan: nat)
    | FailForBudget(plan: nat)
    | CancelPlans

  function Attempted(d: Desk, e: Event): Option<Desk> {
    match e
    case Submit(verbs, coordinated, world) => Submitted(d, verbs, coordinated, world)
    case Resolve(k, g, approved, allowed, world) => Resolved(d, k, g, approved, allowed, world)
    case NoticeQuiet(k) => Noticed(d, k)
    case FailForBudget(k) => OverBudget(d, k)
    case CancelPlans => Some(d.(plans := CancelledPlans(d.plans)))
  }

  function After(d: Desk, events: seq<Event>): Desk
    decreases |events|
  {
    if events == [] then d
    else After(if Attempted(d, events[0]).Some? then Attempted(d, events[0]).value else d, events[1..])
  }

  // ----- the service -----

  class PlanService {
    var plans: seq<PlanRow>
    var children: seq<Child>
    var noticed: set<nat>

    ghost function State(): Desk
      reads this
    {
      Desk(plans, children, noticed)
    }

    static method SkipRemainingSteps(given: seq<StepRow>, from: nat) returns (steps: seq<StepRow>)
      ensures steps == SkippedFrom(given, from)
    {
      steps := given;
      var j := from;
      while j < |given|
        invariant from <= j && |steps| == |given|
        invariant forall k :: 0 <= k < |given| ==>
                    steps[k] == if k < j then SkippedFrom(given, from)[k] else given[k]
      {
        if steps[j].status == StepPending {
          steps := steps[j := steps[j].(status := StepSkipped)];
        }
        j := j + 1;
      }
      assert forall k :: 0 <= k < |given| ==> steps[k] == SkippedFrom(given, from)[k];
    }

    static method ExpirePlanDispatchApprovals(given: seq<Gate>) returns (gates: seq<Gate>)
      ensures gates == ExpiredGates(given)
    {
      gates := given;
      for i := 0 to |given|
        invariant |gates| == |given|
        invariant forall k :: 0 <= k < |given| ==> gates[k] == if k < i then ExpiredGates(given)[k] else given[k]
      {
        if gates[i].status != ApprovalPending { continue; }
        gates := gates[i := gates[i].(status := ApprovalExpired)];
      }
    }

    static method FailStepAndPlan(plan: PlanRow, i: nat) returns (failed: PlanRow)
      ensures failed == FailedAt(plan, i)
    {
      var steps := SkipRemainingSteps(Marked(plan.steps, i, StepFailed), i + 1);
      failed := plan.(status := PlanFailed, steps := steps);
    }

    /** The execution loop; a rolled back one returns None. */
    static method ExecutePlanStepsFrom(given: PlanRow, world: seq<Circumstance>, from: nat, free: Option<nat>)
      returns (r: Option<Outcome>)
      ensures r == Executed(given, world, from, free)
    {
      var plan := given;
      var started: seq<nat> := [];
      var i: nat := from;
      PrefixedByNone(Executed(given, world, from, free));
      while i < |plan.steps|
        invariant Executed(given, world, from, free) == Prefixed(started, Executed(plan, world, i, free))
        decreases |plan.steps| - i
      {
        assert started + [] == started;
        var met := Met(world, i);
        var marked := Marked(plan.steps, i, StepExecuted);
        match plan.steps[i].verb {
          case Consult =>
            if !met.fine {
              var failed := FailStepAndPlan(plan, i);
              return Some(Outcome(failed, started));
            }
            plan := plan.(steps := marked);
          case Dispatch =>
            if met.gated && free != Some(i) {
              return Some(Outcome(plan.(status := PlanWaiting, gates := plan.gates + [Gate(i, ApprovalPending)]),
                started));
            }
            if !met.fine { return None; }
            PrefixedTwice(started, i, Executed(plan.(steps := marked), world, i + 1, free));
            plan, started := plan.(steps := marked), started + [i];
          case Wait =>
            if !met.fine { return None; }
            var steps := SkipRemainingSteps(marked, i + 1);
            return Some(Outcome(plan.(status := PlanWaiting, steps := steps), started));
          case Finish(evaluation) =>
            var steps := SkipRemainingSteps(marked, i + 1);
            if !evaluation { return Some(Outcome(plan.(status := PlanFinished, steps := steps), started)); }
            if !met.fine { return None; }
            return Some(Outcome(plan.(status := PlanFinished, steps := steps), started + [i]));
        }
        i := i + 1;
      }
      assert started + [] == started;
      return Some(Outcome(plan.(status := PlanFinished), started));
    }

    /** The check on the verbs of a coordinated Plan, as two loops. */
    static method DispatchHasBarrier(verbs: seq<Verb>) returns (ok: bool)
      ensures ok <==> BarrierOk(verbs)
    {
      var lastDispatch := -1;
      for i := 0 to |verbs|
        invariant lastDispatch < i
        invariant lastDispatch == -1 || (0 <= lastDispatch && verbs[lastDispatch].Dispatch?)
        invariant -1 <= lastDispatch && forall j :: lastDispatch < j < i ==> !verbs[j].Dispatch?
      {
        if verbs[i].Dispatch? { lastDispatch := i; }
      }
      if lastDispatch < 0 { return true; }
      assert LastDispatch(verbs, lastDispatch);
      assert forall d :: 0 <= d < |verbs| && LastDispatch(verbs, d) ==> d == lastDispatch;
      for i := lastDispatch + 1 to |verbs|
        invariant forall j :: lastDispatch < j < i ==> !EndsBatch(verbs[j])
      {
        if verbs[i].Finish? {
          assert !BarrierAfter(verbs, lastDispatch);
          return false;
        }
        if verbs[i].Wait? {
          assert BarrierAfter(verbs, lastDispatch);
          return true;
        }
      }
      assert !BarrierAfter(verbs, lastDispatch);
      return false;
    }

    method SubmitPlan(verbs: seq<Verb>, coordinated: bool, world: seq<Circumstance>) returns (ok: bool)
      modifies this
      ensures match Submitted(old(State()), verbs, coordinated, world)
              case Some(d) => ok && State() == d
              case None => !ok && State() == old(State())
    {
      if verbs == [] { return false; }
      if coordinated {
        var barrier := DispatchHasBarrier(verbs);
        if !barrier { return false; }
      }
      var open := OpenPlan(plans);
      var kept := plans;
      if open.Some? {
        var existing := plans[open.value];
        if existing.status == PlanActive { return false; }
        var steps := SkipRemainingSteps(existing.steps, 0);
        var gates := ExpirePlanDispatchApprovals(existing.gates);
        kept := kept[open.value := PlanRow(PlanFinished, steps, gates, Some(|plans|))];
      }
      assert Some(kept) == Superseded(plans);
      var r := ExecutePlanStepsFrom(FreshPlan(verbs), world, 0, None);
      if r.None? { return false; }
      children := children + ChildrenOf(|plans|, r.value.started);
      plans := kept + [r.value.plan];
      return true;
    }

    method ResolveApproval(k: nat, g: nat, approved: bool, allowed: bool, world: seq<Circumstance>) returns (ok: bool)
      modifies this
      ensures match Resolved(old(State()), k, g, approved, allowed, world)
              case Some(d) => ok && State() == d
              case None => !ok && State() == old(State())
    {
      if k >= |plans| || g >= |plans[k].gates| { return false; }
      var plan, gate := plans[k], plans[k].gates[g];
      var decision := if approved then ApprovalApproved else ApprovalRejected;
      if gate.status == decision { return true; }
      if gate.status != ApprovalPending { return false; }
      plan := plan.(gates := plan.gates[g := gate.(status := decision)]);
      if plan.status != PlanWaiting {
        plans := plans[k := plan];
        return true;
      }
      if !allowed { return false; }
      if !approved {
        if gate.step >= |plan.steps| { return false; }
        var failed := FailStepAndPlan(plan, gate.step);
        plans := plans[k := failed];
        return true;
      }
      var r := ExecutePlanStepsFrom(plan.(status := PlanActive), world, gate.step, Some(gate.step));
      if r.None? { return false; }
      plans, children := plans[k := r.value.plan], children + ChildrenOf(k, r.value.started);
      return true;
    }

    /** The executed defer or join a waiting Plan is suspended at, searched from the end. */
    static method WaitingPlanJoinStep(plan: PlanRow) returns (step: Option<nat>)
      ensures step.Some? ==> step.value < |plan.steps| && plan.steps[step.value] == StepRow(Wait, StepExecuted)
      ensures step.None? ==> forall i :: 0 <= i < |plan.steps| ==> plan.steps[i] != StepRow(Wait, StepExecuted)
    {
      for i := |plan.steps| downto 0
        invariant forall j :: i <= j < |plan.steps| ==> plan.steps[j] != StepRow(Wait, StepExecuted)
      {
        if plan.steps[i].status != StepExecuted { continue; }
        if plan.steps[i].verb.Wait? { return Some(i); }
      }
      return None;
    }

    /** maybeAdvancePlans, for a tree whose children are quiet and whose tokens exceed the limit. */
    method MaybeAdvancePlans() returns (k: Option<nat>)
      modifies this`noticed
      ensures k.Some? ==> Noticed(old(State()), k.value) == Some(State())
      ensures k.None? ==> State() == old(State()) && forall j :: 0 <= j < |plans| ==> Noticed(State(), j).None?
    {
      k := OpenPlan(plans);
      if k.None? || plans[k.value].status != PlanWaiting { return None; }
      var step := WaitingPlanJoinStep(plans[k.value]);
      if step.None? { return None; }
      noticed := noticed + {k.value};
    }

    method FailPlanForBudget(k: nat)
      requires k in noticed && k < |plans|
      modifies this`plans
      ensures OverBudget(old(State()), k) == Some(State())
    {
      if PlanEnds(plans[k].status) { return; }
      plans := plans[k := plans[k].(status := PlanFailed)];
    }
  }

  function Prefixed(started: seq<nat>, r: Option<Outcome>): Option<Outcome> {
    match r
    case None => None
    case Some(o) => Some(Outcome(o.plan, started + o.started))
  }

  lemma {:induction false} PrefixedByNone(r: Option<Outcome>)
    ensures Prefixed([], r) == r
  {
    if r.Some? { assert [] + r.value.started == r.value.started; }
  }

  lemma {:induction false} PrefixedTwice(started: seq<nat>, i: nat, r: Option<Outcome>)
    ensures Prefixed(started, Prefixed([i], r)) == Prefixed(started + [i], r)
  {
    if r.Some? { assert started + ([i] + r.value.started) == started + [i] + r.value.started; }
  }

  // ----- what holds of one Plan between transactions -----

  /** Everything before step i was executed without ending the batch. */
  predicate Ran(p: PlanRow, i: nat) {
    i <= |p.steps| && forall j :: 0 <= j < i ==> p.steps[j].status == StepExecuted && !EndsBatch(p.steps[j].verb)
  }

  predicate NoGatePending(p: PlanRow) {
    forall g :: 0 <= g < |p.gates| ==> p.gates[g].status != ApprovalPending
  }

  /** Waiting for the approval of step i, with everything from there still to do. */
  predicate GatedAt(p: PlanRow, i: nat) {
    && p.status == PlanWaiting && Ran(p, i) && i < |p.steps| && p.steps[i].verb.Dispatch?
    && (forall j :: i <= j < |p.steps| ==> p.steps[j].status == StepPending)
    && p.gates != [] && p.gates[|p.gates| - 1] == Gate(i, ApprovalPending)
    && forall g :: 0 <= g < |p.gates| - 1 ==> p.gates[g].status != ApprovalPending
  }

  /** Step i ended the batch: it was executed and nothing behind it will be. */
  predicate EndedBy(p: PlanRow, i: nat) {
    && Ran(p, i) && i < |p.steps| && p.steps[i].status == StepExecuted && EndsBatch(p.steps[i].verb)
    && (forall j :: i < j < |p.steps| ==> p.steps[j].status == StepSkipped)
    && NoGatePending(p)
  }

  predicate NothingPending(p: PlanRow) {
    NoGatePending(p) && forall j :: 0 <= j < |p.steps| ==> p.steps[j].status != StepPending
  }

  /** The Plan ran to its own end: a finish step, or the end of the list. */
  predicate RanToItsEnd(p: PlanRow) {
    || Ran(p, |p.steps|)
    || exists i :: 0 <= i < |p.steps| && p.steps[i].verb.Finish? && EndedBy(p, i)
  }

  predicate PlanOk(p: PlanRow) {
    && p.status != PlanActive && (p.supersededBy.Some? ==> p.status == PlanFinished)
    && (p.status == PlanWaiting ==>
        || (exists i :: 0 <= i < |p.steps| && GatedAt(p, i))
        || (exists i :: 0 <= i < |p.steps| && p.steps[i].verb.Wait? && EndedBy(p, i)))
    && (PlanEnds(p.status) ==> NothingPending(p))
    && (p.status == PlanFinished && p.supersededBy.None? ==> RanToItsEnd(p))
  }

  /** In the middle of a transaction: active, with step i next. */
  predicate ActiveAt(p: PlanRow, i: nat) {
    && p.status == PlanActive && p.supersededBy.None? && Ran(p, i) && NoGatePending(p)
    && forall j :: i <= j < |p.steps| ==> p.steps[j].status == StepPending
  }

  /** The executed steps from i onward that start a Run, in order. */
  function StartedFrom(steps: seq<StepRow>, i: nat): seq<nat>
    decreases |steps| - i
  {
    if i >= |steps| then []
    else (if Started(steps[i]) then [i] else []) + StartedFrom(steps, i + 1)
  }

  predicate Started(s: StepRow) { s.status == StepExecuted && StartsRun(s.verb) }

  lemma {:induction false} NothingStartedFrom(steps: seq<StepRow>, i: nat)
    requires forall j :: i <= j < |steps| ==> !Started(steps[j])
    ensures StartedFrom(steps, i) == []
    decreases |steps| - i
  {
    if i < |steps| { NothingStartedFrom(steps, i + 1); }
  }

  lemma {:induction false} StartedFromMeans(steps: seq<StepRow>, i: nat)
    ensures forall j :: j in StartedFrom(steps, i) <==> i <= j < |steps| && Started(steps[j])
    ensures forall a, b :: 0 <= a < b < |StartedFrom(steps, i)| ==> StartedFrom(steps, i)[a] < StartedFrom(steps, i)[b]
    decreases |steps| - i
  {
    if i < |steps| {
      var rest := StartedFrom(steps, i + 1);
      StartedFromMeans(steps, i + 1);
      assert forall a :: 0 <= a < |rest| ==> rest[a] in rest;
    }
  }

  /** The later state q of a Plan keeps its verbs, its steps before i and the gates it had. */
  predicate Follows(p: PlanRow, q: PlanRow, i: nat) {
    && |q.steps| == |p.steps| && q.supersededBy == p.supersededBy
    && (forall j :: 0 <= j < |p.steps| ==> q.steps[j].verb == p.steps[j].verb)
    && (forall j :: 0 <= j < i && j < |p.steps| ==> q.steps[j] == p.steps[j])
    && |p.gates| <= |q.gates| && q.gates[..|p.gates|] == p.gates
  }

  /** A settled Plan that has started exactly the Runs its executed steps from i onward stand for. */
  predicate Settles(p: PlanRow, i: nat, o: Outcome) {
    PlanOk(o.plan) && o.started == StartedFrom(o.plan.steps, i) && Follows(p, o.plan, i)
  }

  lemma {:induction false} SettlesAtGate(p: PlanRow, i: nat)
    requires ActiveAt(p, i) && i < |p.steps| && p.steps[i].verb.Dispatch?
    ensures Settles(p, i, Outcome(p.(status := PlanWaiting, gates := p.gates + [Gate(i, ApprovalPending)]), []))
  {
    var q := p.(status := PlanWaiting, gates := p.gates + [Gate(i, ApprovalPending)]);
    assert GatedAt(q, i);
    NothingStartedFrom(q.steps, i);
  }

  lemma {:induction false} SettlesFailed(p: PlanRow, i: nat)
    requires ActiveAt(p, i) && i < |p.steps|
    ensures Settles(p, i, Outcome(FailedAt(p, i), []))
  {
    NothingStartedFrom(FailedAt(p, i).steps, i);
  }

  lemma {:induction false} SettlesStopped(p: PlanRow, i: nat, s: PlanStatus)
    requires ActiveAt(p, i) && i < |p.steps|
    requires (s == PlanWaiting && p.steps[i].verb.Wait?) || (s == PlanFinished && p.steps[i].verb.Finish?)
    ensures Settles(p, i, Outcome(StoppedAfter(p, i, s), if StartsRun(p.steps[i].verb) then [i] else []))
  {
    var q := StoppedAfter(p, i, s);
    assert EndedBy(q, i);
    NothingStartedFrom(q.steps, i + 1);
  }

  lemma {:induction false} SettlesAtEnd(p: PlanRow)
    requires ActiveAt(p, |p.steps|)
    ensures Settles(p, |p.steps|, Outcome(p.(status := PlanFinished), []))
  {
  }

  lemma {:induction false} OneStepDone(p: PlanRow, i: nat)
    requires ActiveAt(p, i) && i < |p.steps| && !EndsBatch(p.steps[i].verb)
    ensures ActiveAt(p.(steps := Marked(p.steps, i, StepExecuted)), i + 1)
  {
  }

  lemma {:induction false} OneStepBefore(p: PlanRow, i: nat, o: Outcome)
    requires i < |p.steps| && !EndsBatch(p.steps[i].verb)
    requires Settles(p.(steps := Marked(p.steps, i, StepExecuted)), i + 1, o)
    ensures p.steps[i].verb.Dispatch? ==> Settles(p, i, Outcome(o.plan, [i] + o.started))
    ensures p.steps[i].verb.Consult? ==> Settles(p, i, o)
  {
    hide PlanOk;
    assert o.plan.steps[i] == StepRow(p.steps[i].verb, StepExecuted);
  }

  /** A batch that commits leaves a settled Plan. */
  lemma {:induction false} ExecutionSettles(p: PlanRow, world: seq<Circumstance>, i: nat, free: Option<nat>)
    requires ActiveAt(p, i) && Executed(p, world, i, free).Some?
    ensures Settles(p, i, Executed(p, world, i, free).value)
    decreases |p.steps| - i
  {
    assert i <= |p.steps|;
    hide ActiveAt, Settles, StoppedAfter, FailedAt, Marked;
    if i == |p.steps| {
      SettlesAtEnd(p);
    } else {
      var met := Met(world, i);
      var done := p.(steps := Marked(p.steps, i, StepExecuted));
      match p.steps[i].verb {
        case Consult =>
          SettlesFailed(p, i);
          if met.fine {
            OneStepDone(p, i);
            ExecutionSettles(done, world, i + 1, free);
            OneStepBefore(p, i, Executed(done, world, i + 1, free).value);
          }
        case Dispatch =>
          SettlesAtGate(p, i);
          if !(met.gated && free != Some(i)) {
            OneStepDone(p, i);
            ExecutionSettles(done, world, i + 1, free);
            OneStepBefore(p, i, Executed(done, world, i + 1, free).value);
          }
        case Wait => SettlesStopped(p, i, PlanWaiting);
        case Finish(_) => SettlesStopped(p, i, PlanFinished);
      }
    }
  }

  // ----- what holds of the desk between transactions -----

  predicate HasRun(plans: seq<PlanRow>, c: Child) {
    c.plan < |plans| && c.step < |plans[c.plan].steps| && Started(plans[c.plan].steps[c.step])
  }

  /** Every executed step that starts a Run has started exactly one, and no other step has. */
  ghost predicate ChildrenOk(plans: seq<PlanRow>, children: seq<Child>) {
    && (forall a, b :: 0 <= a < b < |children| ==> children[a] != children[b])
    && (forall c :: c in children <==> HasRun(plans, c))
  }

  predicate PlansOk(plans: seq<PlanRow>) {
    forall k :: 0 <= k < |plans| ==> PlanOk(plans[k]) && (k < |plans| - 1 ==> PlanEnds(plans[k].status))
  }

  /** Ended, or waiting at a defer or join that no gate leads away from. */
  predicate Parked(p: PlanRow) {
    PlanEnds(p.status) || exists i :: 0 <= i < |p.steps| && p.steps[i].verb.Wait? && EndedBy(p, i)
  }

  predicate NoticedOk(d: Desk) {
    forall k :: k in d.noticed ==> k < |d.plans| && Parked(d.plans[k])
  }

  ghost predicate Inv(d: Desk) {
    PlansOk(d.plans) && ChildrenOk(d.plans, d.children) && NoticedOk(d)
  }

  lemma {:induction false} ChildrenGrow(plans: seq<PlanRow>, children: seq<Child>, later: seq<PlanRow>,
                                        k: nat, started: seq<nat>)
    requires ChildrenOk(plans, children)
    requires forall c :: HasRun(later, c) <==> HasRun(plans, c) || (c.plan == k && c.step in started)
    requires forall j :: j in started ==> !HasRun(plans, Child(k, j))
    requires forall a, b :: 0 <= a < b < |started| ==> started[a] < started[b]
    ensures ChildrenOk(later, children + ChildrenOf(k, started))
  {
    hide HasRun;
    var added := ChildrenOf(k, started);
    forall c
      ensures c in added <==> c.plan == k && c.step in started
    {
      if c.plan == k && c.step in started {
        var a :| 0 <= a < |started| && started[a] == c.step;
        assert added[a] == c;
      }
    }
    forall a, b | 0 <= a < b < |children + added|
      ensures (children + added)[a] != (children + added)[b]
    {
      if a < |children| <= b {
        assert (children + added)[a] in children && (children + added)[b] in added;
      }
    }
  }

  lemma {:induction false} ChildrenKept(plans: seq<PlanRow>, children: seq<Child>, k: nat, q: PlanRow)
    requires ChildrenOk(plans, children) && k < |plans| && |q.steps| == |plans[k].steps|
    requires forall j :: 0 <= j < |q.steps| ==> Started(q.steps[j]) == Started(plans[k].steps[j])
    ensures ChildrenOk(plans[k := q], children)
  {
    assert forall c :: HasRun(plans[k := q], c) <==> HasRun(plans, c);
  }

  /** Closing an open Plan settles it without touching what was executed. */
  lemma {:induction false} ClosedIsOk(p: PlanRow, s: PlanStatus, heir: Option<nat>)
    requires (s == PlanCancelled && heir.None?) || (s == PlanFinished && heir.Some?)
    ensures PlanOk(ClosedPlan(p, s).(supersededBy := heir)) && NothingPending(ClosedPlan(p, s))
    ensures forall j :: 0 <= j < |p.steps| ==> Started(ClosedPlan(p, s).steps[j]) == Started(p.steps[j])
  {
  }

  lemma {:induction false} SupersedingKeeps(d: Desk)
    requires Inv(d) && Superseded(d.plans).Some?
    ensures var kept := Superseded(d.plans).value;
            && |kept| == |d.plans| && ChildrenOk(kept, d.children) && NoticedOk(d.(plans := kept))
            && forall k :: 0 <= k < |kept| ==> PlanOk(kept[k]) && PlanEnds(kept[k].status)
  {
    hide PlanOk, ChildrenOk;
    var open := OpenPlan(d.plans);
    if open.Some? {
      var k := open.value;
      ClosedIsOk(d.plans[k], PlanFinished, Some(|d.plans|));
      ChildrenKept(d.plans, d.children, k, Superseded(d.plans).value[k]);
    }
  }

  lemma {:induction false} SubmitKeeps(d: Desk, verbs: seq<Verb>, coordinated: bool, world: seq<Circumstance>)
    requires Inv(d) && Submitted(d, verbs, coordinated, world).Some?
    ensures Inv(Submitted(d, verbs, coordinated, world).value)
  {
    var p := FreshPlan(verbs);
    var o := Executed(p, world, 0, None).value;
    var kept := Superseded(d.plans).value;
    SupersedingKeeps(d);
    assert ActiveAt(p, 0);
    ExecutionSettles(p, world, 0, None);
    StartedFromMeans(o.plan.steps, 0);
    hide PlanOk, Executed, Superseded, StartedFrom;
    var m := Submitted(d, verbs, coordinated, world).value;
    forall c
      ensures HasRun(m.plans, c) <==> HasRun(kept, c) || (c.plan == |kept| && c.step in o.started)
    {
      if c.plan < |kept| { assert m.plans[c.plan] == kept[c.plan]; }
    }
    ChildrenGrow(kept, d.children, m.plans, |kept|, o.started);
    forall k | k in m.noticed
      ensures k < |m.plans| && Parked(m.plans[k])
    {
      assert Parked(kept[k]) && m.plans[k] == kept[k];
    }
  }

  /** A pending gate is the last one of a Plan that waits right there. */
  lemma {:induction false} PendingGateWaits(p: PlanRow, g: nat)
    requires PlanOk(p) && g < |p.gates| && p.gates[g].status == ApprovalPending
    ensures GatedAt(p, p.gates[g].step) && g == |p.gates| - 1 && !Parked(p)
  {
    assert !NoGatePending(p);
    assert forall i :: 0 <= i < |p.steps| ==> !EndedBy(p, i);
    var i :| 0 <= i < |p.steps| && GatedAt(p, i);
  }

  lemma {:induction false} RejectionKeeps(d: Desk, k: nat, g: nat)
    requires Inv(d) && k < |d.plans| && g < |d.plans[k].gates| && d.plans[k].gates[g].status == ApprovalPending
    requires Resolved(d, k, g, false, true, []).Some?
    ensures Inv(Resolved(d, k, g, false, true, []).value)
  {
    var p := d.plans[k];
    PendingGateWaits(p, g);
    var i := p.gates[g].step;
    var q := FailedAt(p.(gates := p.gates[g := p.gates[g].(status := ApprovalRejected)]), i);
    assert PlanOk(q);
    hide PlanOk;
    ChildrenKept(d.plans, d.children, k, q);
  }

  lemma {:induction false} ApprovalKeeps(d: Desk, k: nat, g: nat, world: seq<Circumstance>)
    requires Inv(d) && k < |d.plans| && g < |d.plans[k].gates| && d.plans[k].gates[g].status == ApprovalPending
    requires Resolved(d, k, g, true, true, world).Some?
    ensures Inv(Resolved(d, k, g, true, true, world).value)
  {
    var p := d.plans[k];
    PendingGateWaits(p, g);
    var i := p.gates[g].step;
    var q := p.(gates := p.gates[g := p.gates[g].(status := ApprovalApproved)], status := PlanActive);
    assert ActiveAt(q, i);
    ExecutionSettles(q, world, i, Some(i));
    var o := Executed(q, world, i, Some(i)).value;
    StartedFromMeans(o.plan.steps, i);
    hide PlanOk, Executed, StartedFrom;
    var m := Resolved(d, k, g, true, true, world).value;
    forall c
      ensures HasRun(m.plans, c) <==> HasRun(d.plans, c) || (c.plan == k && c.step in o.started)
    {
    }
    ChildrenGrow(d.plans, d.children, m.plans, k, o.started);
  }

  lemma {:induction false} ResolveKeeps(d: Desk, k: nat, g: nat, approved: bool, allowed: bool,
          world: seq<Circumstance>)
    requires Inv(d) && Resolved(d, k, g, approved, allowed, world).Some?
    ensures Inv(Resolved(d, k, g, approved, allowed, world).value)
  {
    hide Inv, PlanOk, Executed;
    var p, gate := d.plans[k], d.plans[k].gates[g];
    if gate.status == ApprovalPending {
      PlanIsOk(d, k);
      PendingGateWaits(p, g);
      if approved { ApprovalKeeps(d, k, g, world); } else { RejectionKeeps(d, k, g); }
    }
  }

  lemma {:induction false} PlanIsOk(d: Desk, k: nat)
    requires Inv(d) && k < |d.plans|
    ensures PlanOk(d.plans[k])
  {
  }

  lemma {:induction false} NoticeKeeps(d: Desk, k: nat)
    requires Inv(d) && Noticed(d, k).Some?
    ensures Inv(Noticed(d, k).value)
  {
    var p := d.plans[k];
    forall i | 0 <= i < |p.steps| && GatedAt(p, i)
      ensures !SuspendedAtWait(p)
    {
    }
    assert Parked(p);
  }

  lemma {:induction false} BudgetKeeps(d: Desk, k: nat)
    requires Inv(d) && OverBudget(d, k).Some?
    ensures Inv(OverBudget(d, k).value)
  {
    var p := d.plans[k];
    if !PlanEnds(p.status) {
      var q := p.(status := PlanFailed);
      assert Parked(p);
      assert PlanOk(q);
      hide PlanOk;
      ChildrenKept(d.plans, d.children, k, q);
    }
  }

  lemma {:induction false} CancelKeeps(d: Desk)
    requires Inv(d)
    ensures Inv(d.(plans := CancelledPlans(d.plans)))
    ensures forall k :: 0 <= k < |d.plans| ==> PlanEnds(CancelledPlans(d.plans)[k].status)
  {
    var open := OpenPlan(d.plans);
    assert open.Some? ==> d.plans[open.value].supersededBy.None?;
    hide PlanOk, ChildrenOk;
    if open.Some? {
      var k := open.value;
      ClosedIsOk(d.plans[k], PlanCancelled, None);
      ChildrenKept(d.plans, d.children, k, ClosedPlan(d.plans[k], PlanCancelled));
    }
  }

  lemma {:induction false} EventKeeps(d: Desk, e: Event)
    requires Inv(d) && Attempted(d, e).Some?
    ensures Inv(Attempted(d, e).value)
  {
    hide Inv, Submitted, Resolved, Noticed, OverBudget;
    match e {
      case Submit(verbs, coordinated, world) => SubmitKeeps(d, verbs, coordinated, world);
      case Resolve(k, g, approved, allowed, world) => ResolveKeeps(d, k, g, approved, allowed, world);
      case NoticeQuiet(k) => NoticeKeeps(d, k);
      case FailForBudget(k) => BudgetKeeps(d, k);
      case CancelPlans => CancelKeeps(d);
    }
  }

  lemma {:induction false} DeskStaysSound(d: Desk, events: seq<Event>)
    requires Inv(d)
    ensures Inv(After(d, events))
    decreases |events|
  {
    hide Inv, Attempted;
    if events != [] {
      if Attempted(d, events[0]).Some? { EventKeeps(d, events[0]); }
      DeskStaysSound(if Attempted(d, events[0]).Some? then Attempted(d, events[0]).value else d, events[1..]);
    }
  }

  // ----- what every history of a desk guarantees -----

  lemma {:induction false} EmptyIsSound()
    ensures Inv(EMPTY_DESK)
  {
  }

  /** Whatever is submitted, approved, rejected, failed or cancelled: each executed step started one Run, once. */
  lemma {:induction false} OneRunPerStep(events: seq<Event>, c: Child)
    ensures var d := After(EMPTY_DESK, events);
            && (forall a, b :: 0 <= a < b < |d.children| ==> d.children[a] != d.children[b])
            && (c in d.children <==> HasRun(d.plans, c))
  {
    EmptyIsSound();
    DeskStaysSound(EMPTY_DESK, events);
    hide After, HasRun;
  }

  predicate OnePlanOpen(plans: seq<PlanRow>) {
    forall i, j :: 0 <= i < j < |plans| ==> PlanEnds(plans[i].status) || PlanEnds(plans[j].status)
  }

  /** No transaction leaves an active Plan behind, nor a second open one; an ended one has nothing left to do. */
  lemma {:induction false} OnlyTheNewestIsOpen(events: seq<Event>, k: nat)
    requires k < |After(EMPTY_DESK, events).plans|
    ensures OnePlanOpen(After(EMPTY_DESK, events).plans)
    ensures After(EMPTY_DESK, events).plans[k].status != PlanActive
    ensures PlanEnds(After(EMPTY_DESK, events).plans[k].status) ==> NothingPending(After(EMPTY_DESK, events).plans[k])
    ensures !PlanEnds(After(EMPTY_DESK, events).plans[k].status) ==> k == |After(EMPTY_DESK, events).plans| - 1
  {
    EmptyIsSound();
    DeskStaysSound(EMPTY_DESK, events);
    hide After;
  }

  /** A gate still to be decided belongs to the open Plan and to the very step it waits at: no decision comes late. */
  lemma {:induction false} NoDecisionIsLate(events: seq<Event>, k: nat, g: nat)
    requires k < |After(EMPTY_DESK, events).plans| && g < |After(EMPTY_DESK, events).plans[k].gates|
    requires After(EMPTY_DESK, events).plans[k].gates[g].status == ApprovalPending
    ensures OpenPlan(After(EMPTY_DESK, events).plans) == Some(k)
    ensures GatedAt(After(EMPTY_DESK, events).plans[k], After(EMPTY_DESK, events).plans[k].gates[g].step)
  {
    EmptyIsSound();
    DeskStaysSound(EMPTY_DESK, events);
    var d := After(EMPTY_DESK, events);
    hide After;
    PendingGateWaits(d.plans[k], g);
  }

  lemma {:induction false} EndedPlanStays(d: Desk, e: Event, k: nat)
    requires Inv(d) && Attempted(d, e).Some? && k < |d.plans| && PlanEnds(d.plans[k].status)
    ensures k < |Attempted(d, e).value.plans| && Attempted(d, e).value.plans[k] == d.plans[k]
  {
    if e.Resolve? && e.plan == k && e.gate < |d.plans[k].gates| {
      assert d.plans[k].gates[e.gate].status != ApprovalPending;
    }
    hide PlanOk, ChildrenOk, Executed;
  }

  /** An ended Plan never reopens: its status, steps and gates are the same in every later state. */
  lemma {:induction false} EndedPlansStay(d: Desk, events: seq<Event>, k: nat)
    requires Inv(d) && k < |d.plans| && PlanEnds(d.plans[k].status)
    ensures k < |After(d, events).plans| && After(d, events).plans[k] == d.plans[k]
    decreases |events|
  {
    hide Inv, Attempted;
    if events != [] {
      if Attempted(d, events[0]).Some? {
        EventKeeps(d, events[0]);
        EndedPlanStays(d, events[0], k);
      }
      EndedPlansStay(if Attempted(d, events[0]).Some? then Attempted(d, events[0]).value else d, events[1..], k);
    }
  }

  // ----- finishing without waiting for the Workers -----

  function VerbsOf(p: PlanRow): (r: seq<Verb>)
    ensures |r| == |p.steps|
  {
    seq(|p.steps|, i requires 0 <= i < |p.steps| => p.steps[i].verb)
  }

  /** Steps before f dispatch work and none of them waits or finishes; f finishes, or there is no step f. */
  predicate BypassedAt(verbs: seq<Verb>, f: nat) {
    && f <= |verbs| && (f < |verbs| ==> verbs[f].Finish?)
    && (forall j :: 0 <= j < f ==> !EndsBatch(verbs[j]))
    && exists j :: 0 <= j < f && verbs[j].Dispatch?
  }

  predicate Bypasses(verbs: seq<Verb>) {
    exists f :: 0 <= f <= |verbs| && BypassedAt(verbs, f)
  }

  /** The Plan finished by itself although one of its steps had dispatched a Worker. */
  predicate FinishedOverWorkers(p: PlanRow) {
    && p.status == PlanFinished && p.supersededBy.None?
    && exists j :: 0 <= j < |p.steps| && p.steps[j].verb.Dispatch? && p.steps[j].status == StepExecuted
  }

  /** Only verbs that bypass the wait can finish so, over any history of gates and decisions. */
  lemma {:induction false} OnlyBypassesFinishOverWorkers(events: seq<Event>, k: nat)
    requires k < |After(EMPTY_DESK, events).plans| && FinishedOverWorkers(After(EMPTY_DESK, events).plans[k])
    ensures Bypasses(VerbsOf(After(EMPTY_DESK, events).plans[k]))
  {
    EmptyIsSound();
    DeskStaysSound(EMPTY_DESK, events);
    var d := After(EMPTY_DESK, events);
    hide After;
    PlanIsOk(d, k);
    var p := d.plans[k];
    var verbs := VerbsOf(p);
    var j :| 0 <= j < |p.steps| && p.steps[j].verb.Dispatch? && p.steps[j].status == StepExecuted;
    assert verbs[j].Dispatch?;
    if Ran(p, |p.steps|) {
      assert BypassedAt(verbs, |verbs|);
    } else {
      var i :| 0 <= i < |p.steps| && p.steps[i].verb.Finish? && EndedBy(p, i);
      assert j < i;
      assert BypassedAt(verbs, i);
    }
  }

  /** And such verbs do finish so when no step is gated and nothing fails. */
  lemma {:induction false} BypassesFinishOverWorkers(p: PlanRow, i: nat, f: nat)
    requires ActiveAt(p, i) && i <= f && BypassedAt(VerbsOf(p), f)
    ensures Executed(p, [], i, None).Some? && FinishedOverWorkers(Executed(p, [], i, None).value.plan)
    decreases |p.steps| - i
  {
    var verbs := VerbsOf(p);
    if i < f {
      var done := p.(steps := Marked(p.steps, i, StepExecuted));
      assert verbs[i] == p.steps[i].verb && VerbsOf(done) == verbs;
      BypassesFinishOverWorkers(done, i + 1, f);
    } else {
      var j :| 0 <= j < f && verbs[j].Dispatch?;
      var q := Executed(p, [], i, None).value.plan;
      assert q.steps[j].verb.Dispatch? && q.steps[j].status == StepExecuted;
    }
  }

  lemma {:induction false} BypassSubmitted(verbs: seq<Verb>, coordinated: bool)
    requires Bypasses(verbs) && (coordinated ==> BarrierOk(verbs))
    ensures var d := After(EMPTY_DESK, [Submit(verbs, coordinated, [])]);
            |d.plans| == 1 && VerbsOf(d.plans[0]) == verbs && FinishedOverWorkers(d.plans[0])
  {
    var p := FreshPlan(verbs);
    assert VerbsOf(p) == verbs;
    var f :| 0 <= f <= |verbs| && BypassedAt(verbs, f);
    BypassesFinishOverWorkers(p, 0, f);
    ExecutionSettles(p, [], 0, None);
    var o := Executed(p, [], 0, None).value;
    assert VerbsOf(o.plan) == verbs;
    hide Executed;
    assert Submitted(EMPTY_DESK, verbs, coordinated, []).Some?;
    assert [Submit(verbs, coordinated, [])][1..] == [];
  }

  /** After some history a Plan of these verbs has finished by itself over dispatched Workers. */
  ghost predicate CanFinishOverWorkers(verbs: seq<Verb>) {
    exists events: seq<Event>, k: nat ::
      k < |After(EMPTY_DESK, events).plans| && FinishedOverWorkers(After(EMPTY_DESK, events).plans[k])
      && VerbsOf(After(EMPTY_DESK, events).plans[k]) == verbs
  }

  lemma {:induction false} FinishesOverWorkersExactly(verbs: seq<Verb>)
    ensures CanFinishOverWorkers(verbs) <==> Bypasses(verbs)
  {
    hide After, Bypasses, FinishedOverWorkers;
    if CanFinishOverWorkers(verbs) {
      var events: seq<Event>, k: nat :|
        k < |After(EMPTY_DESK, events).plans| && FinishedOverWorkers(After(EMPTY_DESK, events).plans[k])
        && VerbsOf(After(EMPTY_DESK, events).plans[k]) == verbs;
      OnlyBypassesFinishOverWorkers(events, k);
    }
    if Bypasses(verbs) { BypassSubmitted(verbs, false); }
  }

  lemma {:induction false} LastDispatchExists(verbs: seq<Verb>, d: nat) returns (l: nat)
    requires d < |verbs| && verbs[d].Dispatch?
    ensures d <= l && LastDispatch(verbs, l)
    decreases |verbs| - d
  {
    if j :| d < j < |verbs| && verbs[j].Dispatch? { l := LastDispatchExists(verbs, j); } else { l := d; }
  }

  /** A finish between two dispatches, with no wait before it. */
  predicate FinishBetween(verbs: seq<Verb>, f: nat) {
    && f < |verbs| && verbs[f].Finish? && (forall j :: 0 <= j < f ==> !EndsBatch(verbs[j]))
    && (exists d :: 0 <= d < f && verbs[d].Dispatch?) && exists l :: f < l < |verbs| && verbs[l].Dispatch?
  }

  /** The check of a coordinated submission only looks behind the last dispatch; this is what passes it. */
  lemma {:induction false} BarrierCheckMisses(verbs: seq<Verb>)
    requires BarrierOk(verbs)
    ensures Bypasses(verbs) <==> exists f :: 0 <= f < |verbs| && FinishBetween(verbs, f)
  {
    if Bypasses(verbs) {
      var f :| 0 <= f <= |verbs| && BypassedAt(verbs, f);
      var d :| 0 <= d < f && verbs[d].Dispatch?;
      var l := LastDispatchExists(verbs, d);
      assert BarrierAfter(verbs, l);
      assert FinishBetween(verbs, f);
    }
    if f :| 0 <= f < |verbs| && FinishBetween(verbs, f) { assert BypassedAt(verbs, f); }
  }

  /** A coordinated Plan that is accepted, starts a Worker and is finished at once. */
  lemma {:induction false} BypassExample(verbs: seq<Verb>)
    requires verbs == [Dispatch, Finish(false), Dispatch, Wait]
    ensures var d := After(EMPTY_DESK, [Submit(verbs, true, [])]);
            |d.plans| == 1 && VerbsOf(d.plans[0]) == verbs && FinishedOverWorkers(d.plans[0])
  {
    assert verbs[0].Dispatch? && verbs[3].Wait?;
    assert LastDispatch(verbs, 2) && BarrierAfter(verbs, 2);
    assert forall d :: 0 <= d < |verbs| && LastDispatch(verbs, d) ==> d == 2;
    assert BypassedAt(verbs, 1);
    BypassSubmitted(verbs, true);
  }

  // ----- what the shape of a decision adds -----

  /** PlanDecisionStepInputs, as far as the verbs go; a finish may ask for an evaluation Run. */
  function VerbOf(v: D.Verb, evaluation: bool): Verb {
    match v
    case ConsultKnowledge => Consult
    case Dispatch => Verb.Dispatch
    case Defer | Join => Wait
    case Finish => Finish(evaluation)
    case Unsupported => Consult
  }

  function DecidedVerbs(steps: seq<D.PlanStep>, evaluation: bool): (r: seq<Verb>)
    ensures |r| == |steps|
  {
    seq(|steps|, i requires 0 <= i < |steps| => VerbOf(steps[i].verb, evaluation))
  }

  /** A decision of the valid shape passes the check and can never finish over its Workers. */
  lemma {:induction false} DecisionsNeverBypass(steps: seq<D.PlanStep>, evaluation: bool)
    requires D.WellShaped(steps)
    ensures BarrierOk(DecidedVerbs(steps, evaluation)) && !CanFinishOverWorkers(DecidedVerbs(steps, evaluation))
  {
    var verbs := DecidedVerbs(steps, evaluation);
    FinishesOverWorkersExactly(verbs);
    hide CanFinishOverWorkers;
    forall d | 0 <= d < |verbs| && LastDispatch(verbs, d)
      ensures BarrierAfter(verbs, d)
    {
      assert D.Fits(steps, d) && D.Dispatches(steps);
      assert d < |verbs| - 1 && verbs[|verbs| - 1].Wait?;
      forall j | d < j < |verbs| - 1
        ensures !verbs[j].Finish?
      {
        assert D.Fits(steps, j);
      }
    }
    assert D.Dispatches(steps) ==> verbs[|verbs| - 1].Wait?;
    forall f | 0 <= f <= |verbs|
      ensures !BypassedAt(verbs, f)
    {
      forall d | 0 <= d < f && verbs[d].Dispatch?
        ensures D.Dispatches(steps[..f]) && D.Dispatches(steps)
      {
        assert steps[..f][d].verb == D.Dispatch && steps[d].verb == D.Dispatch;
      }
      assert f < |steps| ==> D.Fits(steps, f);
    }
  }

  // ----- coordinated tasks -----

  ghost predicate Decoded(verbs: seq<Verb>) {
    exists steps: seq<D.PlanStep>, evaluation: bool ::
      D.WellShaped(steps) && verbs == DecidedVerbs(steps, evaluation)
  }

  /** Plans of a coordinated task are refused from clients; what is submitted for it is a decoded decision. */
  ghost predicate CoordinatedAreDecoded(events: seq<Event>) {
    forall e | e in events && e.Submit? && e.coordinated :: Decoded(e.verbs)
  }

  /** For each Plan of a desk whether its submission was a coordinated one. */
  function Origins(d: Desk, events: seq<Event>, known: seq<bool>): seq<bool>
    decreases |events|
  {
    if events == [] then known
    else if Attempted(d, events[0]).None? then Origins(d, events[1..], known)
    else
      Origins(Attempted(d, events[0]).value, events[1..],
              if events[0].Submit? then known + [events[0].coordinated] else known)
  }

  lemma {:induction false} ExecutionKeepsVerbs(p: PlanRow, world: seq<Circumstance>, i: nat, free: Option<nat>)
    requires Executed(p, world, i, free).Some?
    ensures VerbsOf(Executed(p, world, i, free).value.plan) == VerbsOf(p)
    decreases |p.steps| - i
  {
    if i < |p.steps| {
      var done := p.(steps := Marked(p.steps, i, StepExecuted));
      assert VerbsOf(done) == VerbsOf(p);
      assert VerbsOf(FailedAt(p, i)) == VerbsOf(p);
      assert VerbsOf(StoppedAfter(p, i, PlanWaiting)) == VerbsOf(StoppedAfter(p, i, PlanFinished)) == VerbsOf(p);
      if Executed(done, world, i + 1, free).Some? { ExecutionKeepsVerbs(done, world, i + 1, free); }
    }
  }

  /** No Plan ever changes its verbs, and a new one has those it was submitted with. */
  lemma {:induction false} VerbsStay(d: Desk, e: Event)
    requires Attempted(d, e).Some?
    ensures |Attempted(d, e).value.plans| == |d.plans| + (if e.Submit? then 1 else 0)
    ensures forall k :: 0 <= k < |d.plans| ==> VerbsOf(Attempted(d, e).value.plans[k]) == VerbsOf(d.plans[k])
    ensures e.Submit? ==> VerbsOf(Attempted(d, e).value.plans[|d.plans|]) == e.verbs
  {
    match e
    case Submit(verbs, _, world) =>
      ExecutionKeepsVerbs(FreshPlan(verbs), world, 0, None);
      assert VerbsOf(FreshPlan(verbs)) == verbs;
      SupersedingKeepsVerbs(d.plans);
    case Resolve(k, g, approved, allowed, world) => DecidingKeepsVerbs(d, k, g, approved, allowed, world);
    case NoticeQuiet(k) =>
    case FailForBudget(k) =>
      if k < |d.plans| { assert VerbsOf(d.plans[k].(status := PlanFailed)) == VerbsOf(d.plans[k]); }
    case CancelPlans =>
      var open := OpenPlan(d.plans);
      if open.Some? { assert VerbsOf(ClosedPlan(d.plans[open.value], PlanCancelled)) == VerbsOf(d.plans[open.value]); }
  }

  lemma {:induction false} SupersedingKeepsVerbs(plans: seq<PlanRow>)
    requires Superseded(plans).Some?
    ensures |Superseded(plans).value| == |plans|
    ensures forall k :: 0 <= k < |plans| ==> VerbsOf(Superseded(plans).value[k]) == VerbsOf(plans[k])
  {
    var open := OpenPlan(plans);
    if open.Some? {
      var k := open.value;
      assert VerbsOf(ClosedPlan(plans[k], PlanFinished).(supersededBy := Some(|plans|))) == VerbsOf(plans[k]);
    }
  }

  lemma {:induction false} DecidingKeepsVerbs(d: Desk, k: nat, g: nat, approved: bool, allowed: bool,
                                              world: seq<Circumstance>)
    requires Resolved(d, k, g, approved, allowed, world).Some?
    ensures |Resolved(d, k, g, approved, allowed, world).value.plans| == |d.plans|
    ensures forall j :: 0 <= j < |d.plans| ==>
              VerbsOf(Resolved(d, k, g, approved, allowed, world).value.plans[j]) == VerbsOf(d.plans[j])
  {
    hide Executed;
    var p, gate := d.plans[k], d.plans[k].gates[g];
    var decided := p.(gates := p.gates[g := gate.(status := if approved then ApprovalApproved else ApprovalRejected)]);
    assert VerbsOf(decided) == VerbsOf(p) && VerbsOf(decided.(status := PlanActive)) == VerbsOf(p);
    assert VerbsOf(FailedAt(decided, gate.step)) == VerbsOf(p);
    if Executed(decided.(status := PlanActive), world, gate.step, Some(gate.step)).Some? {
      ExecutionKeepsVerbs(decided.(status := PlanActive), world, gate.step, Some(gate.step));
    }
  }

  ghost predicate OriginsOk(d: Desk, known: seq<bool>) {
    |known| == |d.plans| && forall k :: 0 <= k < |known| && known[k] ==> !Bypasses(VerbsOf(d.plans[k]))
  }

  lemma {:induction false} OriginsStayOk(d: Desk, events: seq<Event>, known: seq<bool>)
    requires OriginsOk(d, known) && CoordinatedAreDecoded(events)
    ensures OriginsOk(After(d, events), Origins(d, events, known))
    decreases |events|
  {
    hide Attempted, Bypasses, Decoded;
    if events != [] {
      var e := events[0];
      assert e in events;
      assert CoordinatedAreDecoded(events[1..]);
      if Attempted(d, e).None? {
        OriginsStayOk(d, events[1..], known);
      } else {
        VerbsStay(d, e);
        if e.Submit? && e.coordinated { DecodedNeverBypasses(e.verbs); }
        OriginsStayOk(Attempted(d, e).value, events[1..], if e.Submit? then known + [e.coordinated] else known);
      }
    }
  }

  lemma {:induction false} DecodedNeverBypasses(verbs: seq<Verb>)
    requires Decoded(verbs)
    ensures !Bypasses(verbs)
  {
    hide Bypasses, CanFinishOverWorkers, D.WellShaped;
    var steps: seq<D.PlanStep>, evaluation: bool :| D.WellShaped(steps) && verbs == DecidedVerbs(steps, evaluation);
    DecisionsNeverBypass(steps, evaluation);
    FinishesOverWorkersExactly(verbs);
  }

  /**
    As decoded decisions are all that is ever submitted for a coordinated task, no
    Plan of one finishes by itself over dispatched Workers, whatever the gates,
    failures and other Plans of the root are.
   */
  lemma {:induction false} CoordinatedPlansAwaitWorkers(events: seq<Event>, k: nat)
    requires CoordinatedAreDecoded(events) && k < |After(EMPTY_DESK, events).plans|
    ensures |Origins(EMPTY_DESK, events, [])| == |After(EMPTY_DESK, events).plans|
    ensures Origins(EMPTY_DESK, events, [])[k] ==> !FinishedOverWorkers(After(EMPTY_DESK, events).plans[k])
  {
    hide After, Origins, CoordinatedAreDecoded, FinishedOverWorkers;
    OriginsStayOk(EMPTY_DESK, events, []);
    if FinishedOverWorkers(After(EMPTY_DESK, events).plans[k]) { OnlyBypassesFinishOverWorkers(events, k); }
  }
}
