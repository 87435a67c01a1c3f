/** What every run of governance commands keeps: claims, generations, turns and the blocked projection. */
module GovernanceRuns {
  import opened Wrappers
  import opened Governance
  import Text

  // ----- the invariant -----

  predicate TodoOk(t: Todo) {
    && (t.status in {TodoClaimed, TodoRunning} ==> t.claim.Some?)
    && (t.claim.Some? ==>
        t.generation >= 1 && t.claim.value.owner != "" && t.claim.value.owner in t.scope && !TodoEnds(t.status))
  }

  predicate TurnsOk(l: Line) {
    && |l.turns| == (if l.todo.Some? then l.todo.value.lastTurn else 0)
    && (forall i :: 0 <= i < |l.turns| ==> l.turns[i].number == i + 1)
    && (forall i, j :: 0 <= i < j < |l.turns| ==> l.turns[i].key != l.turns[j].key)
  }

  /** A handoff never names a generation the Todo has not reached, nor one it no longer holds a claim at. */
  predicate Dated(h: Handoff, t: Todo) {
    && (h.status == HandoffPending ==>
        h.sourceGeneration <= t.generation && (t.claim.None? ==> h.sourceGeneration < t.generation))
    && (h.status == HandoffTransferred ==>
        && h.targetGeneration == h.sourceGeneration + 1 && h.targetGeneration <= t.generation
        && (t.claim.None? ==> h.targetGeneration < t.generation))
  }

  predicate HandoffsDated(l: Line) {
    && (l.todo.None? ==> l.handoffs == [])
    && (l.todo.Some? ==> forall i :: 0 <= i < |l.handoffs| ==> Dated(l.handoffs[i], l.todo.value))
  }

  predicate TransfersApart(l: Line) {
    forall i, j ::
      (0 <= i < j < |l.handoffs| && l.handoffs[i].status == HandoffTransferred
        && l.handoffs[j].status == HandoffTransferred) ==>
      l.handoffs[i].targetGeneration != l.handoffs[j].targetGeneration
  }

  predicate PhasesOk(l: Line) {
    && (l.goal == GoalDraft ==> l.todo.None?)
    && (l.todo.None? ==> l.goal in {GoalDraft, GoalCancelled})
    && (l.goal == GoalBlocked && l.todo.Some? ==> l.todo.value.status == TodoBlocked && l.todo.value.claim.None?)
    && (l.todo.Some? ==> (GoalEnds(l.goal) <==> TodoEnds(l.todo.value.status)))
    && (GoalEnds(l.goal) <==> ControlEnds(l.control.status))
  }

  predicate Inv(l: Line) {
    && (l.todo.Some? ==> TodoOk(l.todo.value))
    && TurnsOk(l) && HandoffsDated(l) && TransfersApart(l) && PhasesOk(l)
    && l.root in l.items
  }

  predicate Initial(l: Line) {
    && l.goal == GoalDraft && l.todo.None? && l.turns == [] && l.handoffs == []
    && !ControlEnds(l.control.status) && l.root in l.items
  }

  // ----- what one command may do to the Todo -----

  /** The generation never falls, and losing or changing hands always raises it. */
  predicate Moves(t: Todo, u: Todo) {
    && u.scope == t.scope && u.lastTurn >= t.lastTurn && u.generation >= t.generation
    && (t.claim.Some? && (u.claim.None? || u.claim.value.owner != t.claim.value.owner) ==> u.generation > t.generation)
    && (t.claim.None? && u.claim.Some? ==> u.generation > t.generation)
  }

  lemma {:induction false} TodoMoves(l: Line, c: Command, m: Line)
    requires (l.todo.Some? ==> TodoOk(l.todo.value)) && PhasesOk(l) && Attempt(l, c) == Success(m)
    ensures l.todo.Some? ==> m.todo.Some? && Moves(l.todo.value, m.todo.value)
    ensures l.todo.None? && m.todo.Some? ==> c.Start?
  {
    hide Latest, Resolvable, FindKey, Queued, Keyed, SameDecision, Blank;
  }

  lemma {:induction false} TodoStaysOk(l: Line, c: Command, m: Line)
    requires (l.todo.Some? ==> TodoOk(l.todo.value)) && PhasesOk(l) && Attempt(l, c) == Success(m)
    ensures m.todo.Some? ==> TodoOk(m.todo.value)
  {
    hide Latest, Resolvable, FindKey, Queued, Keyed, SameDecision, Blank;
  }

  lemma {:induction false} PhasesStayOk(l: Line, c: Command, m: Line)
    requires (l.todo.Some? ==> TodoOk(l.todo.value)) && PhasesOk(l) && Attempt(l, c) == Success(m)
    ensures PhasesOk(m)
  {
    hide Latest, Resolvable, FindKey, Keyed, SameDecision, Blank;
  }

  // ----- turns -----

  predicate Admits(c: Command) { c.AdmitPlan? || c.ControlDecision? }

  /** Only admissions touch the watermark, and each takes exactly the next number under a new key. */
  lemma {:induction false} TurnsAdvanceByOne(l: Line, c: Command, m: Line)
    requires (l.todo.Some? ==> TodoOk(l.todo.value)) && TurnsOk(l) && PhasesOk(l) && Attempt(l, c) == Success(m)
    ensures || (m.turns == l.turns && (l.todo.Some? ==> m.todo.Some? && m.todo.value.lastTurn == l.todo.value.lastTurn)
                && (l.todo.None? && m.todo.Some? ==> m.todo.value.lastTurn == 0))
            || (&& Admits(c) && l.goal == GoalActive && l.todo.Some? && l.todo.value.status != TodoRunning
                && m.todo.Some? && m.todo.value.lastTurn == l.todo.value.lastTurn + 1 == |m.turns|
                && |m.turns| == |l.turns| + 1 && m.turns[..|l.turns|] == l.turns
                && m.turns[|l.turns|].number == m.todo.value.lastTurn && !Keyed(l.turns, m.turns[|l.turns|].key))
  {
    hide Latest, Resolvable, FindKey, Queued, Keyed, SameDecision, Blank;
    if m.turns != l.turns { assert m.turns[..|l.turns|] == l.turns; }
  }

  lemma {:induction false} TurnsStayOk(l: Line, c: Command, m: Line)
    requires (l.todo.Some? ==> TodoOk(l.todo.value)) && TurnsOk(l) && PhasesOk(l) && Attempt(l, c) == Success(m)
    ensures TurnsOk(m)
  {
    TurnsAdvanceByOne(l, c, m);
    TodoMoves(l, c, m);
    hide Attempt;
    if m.turns != l.turns {
      assert forall i :: 0 <= i < |l.turns| ==> m.turns[i] == m.turns[..|l.turns|][i];
    }
  }

  // ----- replayed control receipts -----

  /**
    A replayed control decision opens no turn, and it changes the line exactly
    when a turn is open on the Todo at that moment, which it then closes.
   */
  lemma {:induction false} ReplayedControlExactly(l: Line, c: Command, m: Line)
    requires Inv(l) && c.ControlDecision? && Keyed(l.turns, c.key) && Attempt(l, c) == Success(m)
    ensures m.turns == l.turns && SameDecision(l.turns, c.key, c.intent)
    ensures m != l <==> l.todo.value.status == TodoRunning
    ensures m != l ==>
              m.todo == Some(ClosedControl(l.todo.value, c.keepClaim)) && m.todo.value.lastTurn == l.todo.value.lastTurn
  {
    hide TurnsOk, HandoffsDated, TransfersApart, Keyed, SameDecision, Blank;
  }

  const EXAMPLE_INTENT := Intent(DecideReplan, "stuck", "replan", "run_1")
  const EXAMPLE_DECISION := ControlDecision("agent_1", "control:1", EXAMPLE_INTENT, false, 0)

  const EXAMPLE_TURN := Turn(1, "control:1", Some(EXAMPLE_INTENT))

  function InterruptingLine(status: TodoStatus, claim: Option<Claim>, generation: nat, turns: seq<Turn>): Line {
    Line(GoalActive, Some(Todo(status, claim, generation, |turns|, {"agent_1"})), turns, [],
         Control(ControlOpen, "agent_1", "", None), "root", map["root" := ItemInProgress])
  }

  /** The decision admitted and closed, a Plan turn running, the decision replayed. */
  function InterruptedAt(k: nat): Line {
    var turns := [EXAMPLE_TURN, Turn(2, "plan:2", None)];
    match k
    case 0 => InterruptingLine(TodoPending, None, 0, [])
    case 1 => InterruptingLine(TodoPending, None, 2, [EXAMPLE_TURN])
    case 2 => InterruptingLine(TodoClaimed, Some(Claim("agent_1", 900)), 3, [EXAMPLE_TURN])
    case 3 => InterruptingLine(TodoRunning, Some(Claim("agent_1", 900)), 3, turns)
    case _ => InterruptingLine(TodoPending, None, 4, turns)
  }

  lemma {:induction false} ExampleIsNotBlank()
    ensures !Blank("agent_1") && !Blank("control:1") && !Blank("stuck") && !Blank("replan")
  {
    assert !Text.IsSpace("agent_1"[0]) && !Text.IsSpace("control:1"[0]) && !Text.IsSpace("stuck"[0]);
    assert !Text.IsSpace("replan"[0]);
  }

  lemma {:induction false} ExampleDecides()
    ensures Next(InterruptedAt(0), EXAMPLE_DECISION) == InterruptedAt(1)
  {
    hide Resumed, AcceptedHandoff, CreatedHandoff, Blank;
    ExampleIsNotBlank();
    assert "agent_1" != "";
    assert [] + [EXAMPLE_TURN] == [EXAMPLE_TURN];
  }

  lemma {:induction false} ExampleOpensPlanTurn()
    ensures Next(InterruptedAt(1), ClaimTodo("agent_1", 0, 900)) == InterruptedAt(2)
    ensures Next(InterruptedAt(2), AdmitPlan("agent_1", 2, "plan:2", 0)) == InterruptedAt(3)
  {
    hide Resumed, AcceptedHandoff, CreatedHandoff, ControlDecided;
    assert "control:1"[0] != "plan:2"[0];
    assert [EXAMPLE_TURN] + [Turn(2, "plan:2", None)] == [EXAMPLE_TURN, Turn(2, "plan:2", None)];
  }

  lemma {:induction false} ExampleIsInterrupted()
    ensures Next(InterruptedAt(3), EXAMPLE_DECISION) == InterruptedAt(4)
  {
    hide Resumed, AcceptedHandoff, CreatedHandoff, Blank, FreshControl;
    ExampleIsNotBlank();
    var turns := InterruptedAt(3).turns;
    assert turns[0].key == "control:1" && Repeats(EXAMPLE_INTENT, turns[0].control.value);
  }

  /**
    A Plan turn is open when an older control decision is replayed: it loses its
    claim and can no longer be settled.
   */
  lemma {:induction false} InterruptedTurnExample()
    ensures Next(InterruptedAt(0), EXAMPLE_DECISION) == InterruptedAt(1)
    ensures Next(Next(InterruptedAt(1), ClaimTodo("agent_1", 0, 900)), AdmitPlan("agent_1", 2, "plan:2", 0))
            == InterruptedAt(3)
    ensures Next(InterruptedAt(3), EXAMPLE_DECISION) == InterruptedAt(4)
    ensures Attempt(InterruptedAt(4), SettleTurn(2, TodoWaiting)) == Failure(StateConflict)
  {
    ExampleDecides();
    ExampleOpensPlanTurn();
    ExampleIsInterrupted();
    hide Next, Resumed, AcceptedHandoff, CreatedHandoff, ControlDecided;
  }

  // ----- handoffs -----

  /** One command leaves a handoff alone, closes it, or accepts it at its own generation. */
  predicate HandoffMoves(h: Handoff, k: Handoff, t: Todo, u: Todo) {
    && k.source == h.source && k.target == h.target && k.sourceGeneration == h.sourceGeneration
    && (k != h ==> h.status == HandoffPending && k.status != HandoffPending)
    && (k != h && k.status == HandoffTransferred ==>
        && t.claim.Some? && u.claim.Some? && h.sourceGeneration == t.generation
        && k.targetGeneration == u.generation == t.generation + 1)
  }

  predicate FreshHandoff(h: Handoff, u: Todo) {
    h.status == HandoffPending && u.claim.Some? && h.sourceGeneration == u.generation
  }

  lemma {:induction false} HandoffsMove(l: Line, c: Command, m: Line)
    requires (l.todo.Some? ==> TodoOk(l.todo.value)) && PhasesOk(l) && l.todo.Some? && Attempt(l, c) == Success(m)
    ensures m.todo.Some? && |l.handoffs| <= |m.handoffs|
    ensures forall i :: 0 <= i < |l.handoffs| ==> HandoffMoves(l.handoffs[i], m.handoffs[i], l.todo.value, m.todo.value)
    ensures forall i :: |l.handoffs| <= i < |m.handoffs| ==> FreshHandoff(m.handoffs[i], m.todo.value)
  {
    hide Latest, Resolvable, FindKey, Queued, Keyed, SameDecision, Blank, ResumedTodo, ControlClaim;
    TodoMoves(l, c, m);
  }

  lemma {:induction false} OneAcceptedAtATime(l: Line, c: Command, m: Line, i: nat, j: nat)
    requires Attempt(l, c) == Success(m) && i < |l.handoffs| && j < |l.handoffs| && j < |m.handoffs| && i < |m.handoffs|
    requires m.handoffs[i].status == HandoffTransferred && l.handoffs[i].status != HandoffTransferred && i != j
    ensures m.handoffs[j] == l.handoffs[j]
  {
    hide Latest, Resolvable, FindKey, Queued, Keyed, SameDecision, Blank, ResumedTodo, ControlClaim;
  }

  lemma {:induction false} HandoffsStayDated(l: Line, c: Command, m: Line)
    requires (l.todo.Some? ==> TodoOk(l.todo.value)) && HandoffsDated(l) && PhasesOk(l) && Attempt(l, c) == Success(m)
    ensures HandoffsDated(m)
  {
    TodoMoves(l, c, m);
    if l.todo.Some? {
      HandoffsMove(l, c, m);
      hide Attempt;
      forall i | 0 <= i < |m.handoffs|
        ensures Dated(m.handoffs[i], m.todo.value)
      {
        if i < |l.handoffs| {
          assert Dated(l.handoffs[i], l.todo.value);
          assert HandoffMoves(l.handoffs[i], m.handoffs[i], l.todo.value, m.todo.value);
        } else {
          assert FreshHandoff(m.handoffs[i], m.todo.value);
        }
      }
    } else {
      NoTodoNoHandoffs(l, c, m);
    }
  }

  lemma {:induction false} NoTodoNoHandoffs(l: Line, c: Command, m: Line)
    requires l.todo.None? && l.handoffs == [] && Attempt(l, c) == Success(m)
    ensures m.handoffs == []
  {
    hide Latest, Resolvable, FindKey, Queued, Keyed, SameDecision, Blank, ResumedTodo, ControlClaim;
  }

  lemma {:induction false} TransfersStayApart(l: Line, c: Command, m: Line)
    requires (l.todo.Some? ==> TodoOk(l.todo.value)) && HandoffsDated(l) && TransfersApart(l) && PhasesOk(l)
    requires Attempt(l, c) == Success(m)
    ensures TransfersApart(m)
  {
    hide Attempt;
    if l.todo.None? {
      NoTodoNoHandoffs(l, c, m);
    } else {
      HandoffsMove(l, c, m);
      forall i, j | 0 <= i < j < |m.handoffs| && m.handoffs[i].status == HandoffTransferred
                    && m.handoffs[j].status == HandoffTransferred
        ensures m.handoffs[i].targetGeneration != m.handoffs[j].targetGeneration
      {
        PairApart(l, c, m, i, j);
      }
    }
  }

  /** A transfer accepted now is dated above every transfer accepted before. */
  lemma {:induction false} PairApart(l: Line, c: Command, m: Line, i: nat, j: nat)
    requires l.todo.Some? && m.todo.Some? && HandoffsDated(l) && TransfersApart(l) && Attempt(l, c) == Success(m)
    requires |l.handoffs| <= |m.handoffs| && i < j < |m.handoffs|
    requires forall k :: 0 <= k < |l.handoffs| ==>
              HandoffMoves(l.handoffs[k], m.handoffs[k], l.todo.value, m.todo.value)
    requires forall k :: |l.handoffs| <= k < |m.handoffs| ==> FreshHandoff(m.handoffs[k], m.todo.value)
    requires m.handoffs[i].status == HandoffTransferred && m.handoffs[j].status == HandoffTransferred
    ensures m.handoffs[i].targetGeneration != m.handoffs[j].targetGeneration
  {
    hide Attempt;
    assert i < |l.handoffs| && j < |l.handoffs|;
    assert HandoffMoves(l.handoffs[i], m.handoffs[i], l.todo.value, m.todo.value);
    assert HandoffMoves(l.handoffs[j], m.handoffs[j], l.todo.value, m.todo.value);
    assert Dated(l.handoffs[i], l.todo.value) && Dated(l.handoffs[j], l.todo.value);
    if l.handoffs[i].status != HandoffTransferred {
      OneAcceptedAtATime(l, c, m, i, j);
    } else if l.handoffs[j].status != HandoffTransferred {
      OneAcceptedAtATime(l, c, m, j, i);
    }
  }

  // ----- over whole runs -----

  lemma {:induction false} ItemsStay(l: Line, c: Command, m: Line)
    requires l.root in l.items && Attempt(l, c) == Success(m)
    ensures m.root == l.root && m.root in m.items
  {
    hide Latest, Resolvable, FindKey, Queued, Keyed, SameDecision, Blank, ResumedTodo, ControlClaim;
  }

  lemma {:induction false} InvStays(l: Line, c: Command)
    requires Inv(l)
    ensures Inv(Next(l, c))
  {
    hide Attempt, TodoOk, TurnsOk, HandoffsDated, TransfersApart, PhasesOk;
    if Attempt(l, c).Success? {
      var m := Attempt(l, c).value;
      TodoStaysOk(l, c, m);
      PhasesStayOk(l, c, m);
      TurnsStayOk(l, c, m);
      HandoffsStayDated(l, c, m);
      TransfersStayApart(l, c, m);
      ItemsStay(l, c, m);
    }
  }

  lemma {:induction false} InitiallySound(l: Line)
    requires Initial(l)
    ensures Inv(l)
  {
  }

  lemma {:induction false} PlayIsSound(l: Line, commands: seq<Command>)
    requires Inv(l)
    ensures Inv(Play(l, commands))
    decreases |commands|
  {
    hide Inv, Next;
    if commands != [] {
      InvStays(l, commands[0]);
      PlayIsSound(Next(l, commands[0]), commands[1..]);
    }
  }

  /** Whatever the interleaving, a claim generation is transferred at most once and yields one successor. */
  lemma {:induction false} OneTransferPerGeneration(l: Line, commands: seq<Command>, i: nat, j: nat)
    requires Initial(l) && i < j < |Play(l, commands).handoffs|
    requires Play(l, commands).handoffs[i].status == HandoffTransferred
    requires Play(l, commands).handoffs[j].status == HandoffTransferred
    ensures Play(l, commands).handoffs[i].sourceGeneration != Play(l, commands).handoffs[j].sourceGeneration
    ensures Play(l, commands).handoffs[i].targetGeneration != Play(l, commands).handoffs[j].targetGeneration
  {
    InitiallySound(l);
    PlayIsSound(l, commands);
    hide Play;
    var m := Play(l, commands);
    assert m.todo.Some?;
    assert Dated(m.handoffs[i], m.todo.value) && Dated(m.handoffs[j], m.todo.value);
  }

  /** So at most one transfer ever matches the current claim: there is no choice between several. */
  lemma {:induction false} AtMostOneActive(l: Line, d: Directory, i: nat, j: nat)
    requires Inv(l) && ActiveAt(l, i, d) && ActiveAt(l, j, d)
    ensures i == j
  {
  }

  lemma {:induction false} GenerationsRise(l: Line, commands: seq<Command>)
    requires Inv(l) && l.todo.Some?
    ensures Play(l, commands).todo.Some? && Play(l, commands).todo.value.generation >= l.todo.value.generation
    decreases |commands|
  {
    if commands != [] {
      hide Attempt, TodoOk, TurnsOk, HandoffsDated, TransfersApart, PhasesOk;
      var c := commands[0];
      InvStays(l, c);
      if Attempt(l, c).Success? { TodoMoves(l, c, Attempt(l, c).value); }
      GenerationsRise(Next(l, c), commands[1..]);
    }
  }

  /**
    Over any interleaving of Plan and control admissions: numbers 1, 2, 3, ..., keys all different, none taken
    back.
   */
  lemma {:induction false} TurnsOfARun(l: Line, commands: seq<Command>, more: seq<Command>)
    requires Initial(l)
    ensures TurnsOk(Play(l, commands))
    ensures Play(l, commands).turns <= Play(Play(l, commands), more).turns
  {
    InitiallySound(l);
    PlayIsSound(l, commands);
    TurnsOnlyGrow(Play(l, commands), more);
  }

  lemma {:induction false} TurnsOnlyGrow(l: Line, commands: seq<Command>)
    requires Inv(l)
    ensures l.turns <= Play(l, commands).turns
    decreases |commands|
  {
    if commands != [] {
      hide Attempt, TodoOk, HandoffsDated, TransfersApart, PhasesOk;
      var c := commands[0];
      InvStays(l, c);
      if Attempt(l, c).Success? { TurnsAdvanceByOne(l, c, Attempt(l, c).value); }
      assert l.turns <= Next(l, c).turns;
      TurnsOnlyGrow(Next(l, c), commands[1..]);
    }
  }

  /** A blocked Goal's Todo is blocked and free, whatever was tried before or since. */
  lemma {:induction false} BlockedGoalOwnsNothing(l: Line, commands: seq<Command>)
    requires Initial(l) && Play(l, commands).goal == GoalBlocked
    ensures Play(l, commands).todo.Some?
    ensures Play(l, commands).todo.value.status == TodoBlocked && Play(l, commands).todo.value.claim.None?
  {
    InitiallySound(l);
    PlayIsSound(l, commands);
    hide Play;
  }

  // ----- what a handoff can no longer do -----

  /** The claim generation this handoff could act at has passed. */
  predicate Retired(l: Line, i: nat) {
    && i < |l.handoffs| && l.todo.Some?
    && (l.handoffs[i].status == HandoffPending ==> l.handoffs[i].sourceGeneration < l.todo.value.generation)
    && (l.handoffs[i].status == HandoffTransferred ==> l.handoffs[i].targetGeneration < l.todo.value.generation)
  }

  lemma {:induction false} StaysRetired(l: Line, commands: seq<Command>, i: nat)
    requires Inv(l) && Retired(l, i)
    ensures Retired(Play(l, commands), i)
    ensures l.handoffs[i].status != HandoffTransferred ==> Play(l, commands).handoffs[i].status != HandoffTransferred
    decreases |commands|
  {
    if commands != [] {
      hide Attempt, TodoOk, TurnsOk, HandoffsDated, TransfersApart, PhasesOk;
      var c := commands[0];
      InvStays(l, c);
      if Attempt(l, c).Success? {
        var m := Attempt(l, c).value;
        TodoMoves(l, c, m);
        HandoffsMove(l, c, m);
        assert HandoffMoves(l.handoffs[i], m.handoffs[i], l.todo.value, m.todo.value);
      }
      StaysRetired(Next(l, c), commands[1..], i);
    }
  }

  lemma {:induction false} RetiredNeverControls(l: Line, i: nat, d: Directory)
    requires Retired(l, i)
    ensures !Controls(l, i, d) && !ActiveAt(l, i, d)
  {
  }

  predicate Blocks(c: Command) { c.BlockControl? || c.BlockItem? }

  lemma {:induction false} BlockingRetires(l: Line, c: Command, m: Line, i: nat)
    requires Inv(l) && Blocks(c) && Attempt(l, c) == Success(m) && i < |l.handoffs|
    ensures Retired(m, i)
  {
    assert Dated(l.handoffs[i], l.todo.value);
  }

  /** Once the root is blocked, no handoff that existed then controls the Coordinator again, unblocked or not. */
  lemma {:induction false} OldHandoffsNeverControl(l: Line, c: Command, commands: seq<Command>, d: Directory, i: nat)
    requires Inv(l) && Blocks(c) && Attempt(l, c).Success? && i < |l.handoffs|
    ensures !Controls(Play(Next(l, c), commands), i, d) && !ActiveAt(Play(Next(l, c), commands), i, d)
  {
    BlockingRetires(l, c, Next(l, c), i);
    InvStays(l, c);
    StaysRetired(Next(l, c), commands, i);
    RetiredNeverControls(Play(Next(l, c), commands), i, d);
  }

  /** A competing handoff of the same generation loses for good once another one is accepted. */
  lemma {:induction false} RivalsAreNeverAccepted(l: Line, c: Command, commands: seq<Command>, i: nat, j: nat)
    requires Inv(l) && Attempt(l, c).Success? && i < |l.handoffs| && j < |l.handoffs| && i != j
    requires l.handoffs[i].status == HandoffPending && l.handoffs[j].status == HandoffPending
    requires i < |Next(l, c).handoffs| && Next(l, c).handoffs[i].status == HandoffTransferred
    ensures j < |Play(Next(l, c), commands).handoffs|
    ensures Play(Next(l, c), commands).handoffs[j].status != HandoffTransferred
  {
    hide TurnsOk, TransfersApart, Attempt, Play;
    var m := Attempt(l, c).value;
    HandoffsMove(l, c, m);
    OneAcceptedAtATime(l, c, m, i, j);
    TodoMoves(l, c, m);
    assert HandoffMoves(l.handoffs[i], m.handoffs[i], l.todo.value, m.todo.value);
    assert Dated(l.handoffs[j], l.todo.value);
    InvStays(l, c);
    StaysRetired(m, commands, j);
  }

  /** A transfer is one write: the source owned the live claim before it, the target owns it after. */
  lemma {:induction false} TransferMovesTheClaim(l: Line, id: nat, target: string, text: string, now: int, d: Directory,
                                                 runs: map<string, RunFacts>)
    requires id < |l.handoffs| && l.handoffs[id].status == HandoffPending
    requires AcceptedHandoff(l, id, target, text, now, d, runs).Success?
    ensures l.handoffs[id].source in d && l.handoffs[id].target in d && l.todo.Some?
    ensures Owned(l.todo.value, d[l.handoffs[id].source]) && Live(l.todo.value.claim.value, now)
    ensures AcceptedHandoff(l, id, target, text, now, d, runs).value.todo ==
            Some(l.todo.value.(claim := Some(Claim(d[l.handoffs[id].target], now + CLAIM_TTL)),
                               generation := l.todo.value.generation + 1))
    ensures Controls(AcceptedHandoff(l, id, target, text, now, d, runs).value, id, d)
  {
  }

  // ----- block, unblock, pause, resume -----

  predicate Lifecycle(c: Command) {
    c.Start? || c.Pause? || c.Resume? || c.ClaimTodo? || c.ReleaseTodo? || Blocks(c) || c.UnblockItem? || c.CancelGoal?
  }

  /** A lifecycle change is never a turn: it neither allocates a number nor moves the watermark. */
  lemma {:induction false} LifecycleIsNotATurn(l: Line, commands: seq<Command>)
    requires Inv(l) && forall c :: c in commands ==> Lifecycle(c)
    ensures Play(l, commands).turns == l.turns
    ensures l.todo.Some? ==>
              Play(l, commands).todo.Some? && Play(l, commands).todo.value.lastTurn == l.todo.value.lastTurn
    decreases |commands|
  {
    if commands != [] {
      hide Attempt, TodoOk, HandoffsDated, TransfersApart, PhasesOk;
      var c := commands[0];
      InvStays(l, c);
      assert Lifecycle(c) && !Admits(c);
      if Attempt(l, c).Success? { TurnsAdvanceByOne(l, c, Attempt(l, c).value); }
      assert Next(l, c).turns == l.turns;
      LifecycleIsNotATurn(Next(l, c), commands[1..]);
    }
  }

  /** Unblocking right after a block reopens the Goal with its Todo pending and its watermark untouched. */
  lemma {:induction false} BlockThenUnblock(l: Line, id: string, m: Line, n: Line)
    requires Inv(l) && l.todo.Some? && !GoalEnds(l.goal)
    requires Attempt(l, BlockItem(id)) == Success(m) && Attempt(m, UnblockItem(id)) == Success(n)
    ensures n.goal == GoalActive && n.control.status == ControlOpen && n.items[id] == ItemInProgress
    ensures n.todo == Some(Todo(TodoPending, None, Cleared(l.todo.value), l.todo.value.lastTurn, l.todo.value.scope))
    ensures n.handoffs == l.handoffs && n.turns == l.turns
  {
  }

  lemma {:induction false} LatestIsNewest(handoffs: seq<Handoff>)
    ensures Latest(handoffs).None? <==> forall i :: 0 <= i < |handoffs| ==> handoffs[i].status != HandoffTransferred
    ensures Latest(handoffs).Some? ==>
              && Latest(handoffs).value < |handoffs| && handoffs[Latest(handoffs).value].status == HandoffTransferred
              && forall i :: 0 <= i < |handoffs| && handoffs[i].status == HandoffTransferred ==>
                   handoffs[i].targetGeneration <= handoffs[Latest(handoffs).value].targetGeneration
  {
    if handoffs == [] {
    } else {
      var k := |handoffs| - 1;
      LatestIsNewest(handoffs[..k]);
      assert forall i :: 0 <= i < k ==> handoffs[..k][i] == handoffs[i];
    }
  }

  predicate NothingTransferred(l: Line) {
    forall i :: 0 <= i < |l.handoffs| ==> l.handoffs[i].status != HandoffTransferred
  }

  predicate HeldThrough(l: Line, i: nat, d: Directory) {
    && i < |l.handoffs| && l.todo.Some? && l.handoffs[i].status == HandoffTransferred
    && l.handoffs[i].targetGeneration == l.todo.value.generation
    && l.handoffs[i].target in d && Owned(l.todo.value, d[l.handoffs[i].target])
  }

  /** Exactly when a paused Goal can be resumed: a past transfer must still be the one that holds the claim. */
  lemma {:induction false} ResumesExactly(l: Line, now: int, d: Directory)
    requires Inv(l)
    ensures Resumed(l, now, d).Success? <==>
            && l.goal == GoalWaiting && l.control.status == ControlOpen
            && (l.todo.Some? ==>
                && l.todo.value.status == TodoWaiting && Resolvable(l.handoffs, d)
                && (NothingTransferred(l) || exists i :: HeldThrough(l, i, d)))
  {
    LatestIsNewest(l.handoffs);
    if l.todo.Some? && Latest(l.handoffs).Some? {
      var k := Latest(l.handoffs).value;
      assert Dated(l.handoffs[k], l.todo.value);
      assert HeldThrough(l, k, d) <== (l.handoffs[k].target in d
                                       && l.handoffs[k].targetGeneration == l.todo.value.generation
                                       && Owned(l.todo.value, d[l.handoffs[k].target]));
      forall i | 0 <= i < |l.handoffs| && HeldThrough(l, i, d)
        ensures i == k
      {
        assert Dated(l.handoffs[i], l.todo.value);
      }
    }
  }

  /** Once every transfer has lost its claim, the Goal can be paused but not resumed until another is accepted. */
  lemma {:induction false} LostTransferStopsResume(l: Line, commands: seq<Command>, i: nat, now: int, d: Directory)
    requires Inv(l) && i < |l.handoffs| && l.handoffs[i].status == HandoffTransferred
    requires forall k :: 0 <= k < |l.handoffs| && l.handoffs[k].status == HandoffTransferred ==> Retired(l, k)
    requires forall c :: c in commands ==> !c.AcceptHandoff?
    ensures Resumed(Play(l, commands), now, d).Failure?
    decreases |commands|
  {
    hide Attempt, TodoOk, TurnsOk, HandoffsDated, TransfersApart, PhasesOk, Latest, Resumed;
    if commands == [] {
      forall k
        ensures !HeldThrough(l, k, d)
      {
      }
      EndedOrNot(l);
      ResumesExactly(l, now, d);
    } else {
      var c := commands[0];
      InvStays(l, c);
      if Attempt(l, c).Success? { TransfersStayLost(l, c, Attempt(l, c).value, i); }
      LostTransferStopsResume(Next(l, c), commands[1..], i, now, d);
    }
  }

  const LEAD_AND_PEER: Directory := map["lead" := "agent_1", "peer" := "agent_2"]

  /** Hand the work over, block and unblock the root task, then pause. */
  function LostTransferStep(k: nat): Command {
    match k
    case 0 => Start({"agent_1", "agent_2"})
    case 1 => ClaimTodo("agent_1", 0, 900)
    case 2 => CreateHandoff(Handoff(HandoffPending, "lead", "peer", 0, 0, "", "take over", "", ""), 0, LEAD_AND_PEER)
    case 3 => AcceptHandoff(0, "peer", "taken", 0, LEAD_AND_PEER, map[])
    case 4 => BlockItem("root")
    case 5 => UnblockItem("root")
    case _ => Pause
  }

  function LostTransferTodo(status: TodoStatus, claim: Option<Claim>, generation: nat): Option<Todo> {
    Some(Todo(status, claim, generation, 0, {"agent_1", "agent_2"}))
  }

  /** The root task before the k-th of those commands. */
  function LostTransferLine(k: nat): Line {
    var goal := if k == 0 then GoalDraft else if k == 5 then GoalBlocked else if k >= 7 then GoalWaiting
      else GoalActive;
    var todo :=
      match k
      case 0 => None
      case 1 => LostTransferTodo(TodoPending, None, 0)
      case 2 => LostTransferTodo(TodoClaimed, Some(Claim("agent_1", 900)), 1)
      case 3 => LostTransferTodo(TodoClaimed, Some(Claim("agent_1", 900)), 1)
      case 4 => LostTransferTodo(TodoClaimed, Some(Claim("agent_2", CLAIM_TTL)), 2)
      case 5 => LostTransferTodo(TodoBlocked, None, 3)
      case 6 => LostTransferTodo(TodoPending, None, 3)
      case _ => LostTransferTodo(TodoWaiting, None, 3);
    var pending := Handoff(HandoffPending, "lead", "peer", 1, 0, "", "take over", "", "");
    var handoffs := if k < 3 then [] else if k == 3 then [pending]
                    else [pending.(status := HandoffTransferred, acceptance := "taken", targetGeneration := 2)];
    var control := Control(if k == 5 then ControlBlocked else ControlOpen, "agent_1", "",
                           if k == 4 then Some(Checkpoint(0, "agent_2", 2, "", "agent_1")) else None);
    Line(goal, todo, [], handoffs, control, "root", map["root" := if k == 5 then ItemBlocked else ItemInProgress])
  }

  function LostTransferFrom(k: nat): seq<Command>
    decreases 7 - k
  {
    if k >= 7 then [] else [LostTransferStep(k)] + LostTransferFrom(k + 1)
  }

  lemma {:induction false} LostTransferBegins(k: nat)
    requires k < 3
    ensures Next(LostTransferLine(k), LostTransferStep(k)) == LostTransferLine(k + 1)
  {
    hide ControlDecided, Resumed, AcceptedHandoff, BlockedByUser, UnblockedByUser;
    assert "lead"[0] != "peer"[0] && "agent_1"[6] != "agent_2"[6];
    assert Next(LostTransferLine(k), LostTransferStep(k)).handoffs == LostTransferLine(k + 1).handoffs;
  }

  lemma {:induction false} LostTransferIsAccepted()
    ensures Next(LostTransferLine(3), LostTransferStep(3)) == LostTransferLine(4)
  {
    hide ControlDecided, Resumed, BlockedByUser, UnblockedByUser, CreatedHandoff;
    assert "lead"[0] != "peer"[0] && "agent_1"[6] != "agent_2"[6] && "taken"[0] == 't';
    assert Next(LostTransferLine(3), LostTransferStep(3)).handoffs == LostTransferLine(4).handoffs;
  }

  lemma {:induction false} LostTransferEnds(k: nat)
    requires 4 <= k < 7
    ensures Next(LostTransferLine(k), LostTransferStep(k)) == LostTransferLine(k + 1)
  {
    hide ControlDecided, Resumed, AcceptedHandoff, CreatedHandoff;
    var l := LostTransferLine(k);
    assert l.items["root" := ItemBlocked] == map["root" := ItemBlocked];
    assert l.items["root" := ItemInProgress] == map["root" := ItemInProgress];
  }

  lemma {:induction false} LostTransferPlays(k: nat)
    requires k <= 7
    ensures Play(LostTransferLine(k), LostTransferFrom(k)) == LostTransferLine(7)
    decreases 7 - k
  {
    hide Next, LostTransferLine, LostTransferStep;
    if k < 7 {
      if k < 3 { LostTransferBegins(k); } else if k == 3 { LostTransferIsAccepted(); } else { LostTransferEnds(k); }
      LostTransferPlays(k + 1);
      assert LostTransferFrom(k)[1..] == LostTransferFrom(k + 1);
    }
  }

  /** After them the paused Goal cannot be resumed, whoever is enabled and whenever it is tried. */
  lemma {:induction false} LostTransferExample(now: int, d: Directory)
    ensures Initial(LostTransferLine(0)) && Play(LostTransferLine(0), LostTransferFrom(0)) == LostTransferLine(7)
    ensures LostTransferLine(7).goal == GoalWaiting && LostTransferLine(7).control.status == ControlOpen
    ensures Resumed(LostTransferLine(7), now, d).Failure?
  {
    var l, m := LostTransferLine(0), LostTransferLine(7);
    LostTransferPlays(0);
    PlayIsSound(l, LostTransferFrom(0));
    hide Play, LostTransferFrom;
    assert m.handoffs[0].status == HandoffTransferred;
    ResumesExactly(m, now, d);
  }

  lemma {:induction false} EndedOrNot(l: Line)
    requires Inv(l) && l.handoffs != []
    ensures l.todo.Some?
  {
  }

  lemma {:induction false} TransfersStayLost(l: Line, c: Command, m: Line, i: nat)
    requires Inv(l) && Attempt(l, c) == Success(m) && !c.AcceptHandoff?
    requires i < |l.handoffs| && l.handoffs[i].status == HandoffTransferred
    requires forall k :: 0 <= k < |l.handoffs| && l.handoffs[k].status == HandoffTransferred ==> Retired(l, k)
    ensures i < |m.handoffs| && m.handoffs[i].status == HandoffTransferred
    ensures forall k :: 0 <= k < |m.handoffs| && m.handoffs[k].status == HandoffTransferred ==> Retired(m, k)
  {
    assert l.todo.Some?;
    TodoMoves(l, c, m);
    HandoffsMove(l, c, m);
    forall k | 0 <= k < |m.handoffs| && m.handoffs[k].status == HandoffTransferred
      ensures k < |l.handoffs| && l.handoffs[k].status == HandoffTransferred && Retired(m, k)
    {
      OnlyAcceptanceTransfers(l, c, m, k);
      hide Attempt;
      if k < |l.handoffs| { assert HandoffMoves(l.handoffs[k], m.handoffs[k], l.todo.value, m.todo.value); }
    }
    hide Attempt;
    assert HandoffMoves(l.handoffs[i], m.handoffs[i], l.todo.value, m.todo.value);
  }

  lemma {:induction false} OnlyAcceptanceTransfers(l: Line, c: Command, m: Line, k: nat)
    requires Attempt(l, c) == Success(m) && !c.AcceptHandoff? && k < |m.handoffs|
    requires m.handoffs[k].status == HandoffTransferred
    ensures k < |l.handoffs| && l.handoffs[k].status == HandoffTransferred
  {
    hide Latest, Resolvable, FindKey, Queued, Keyed, SameDecision, Blank, ResumedTodo, ControlClaim;
  }

  // ----- the blocked projection -----

  /** The Goal-side checks of CheckGovernanceConsistency. */
  predicate Consistent(l: Line)
    requires l.root in l.items
  {
    && (l.goal == GoalActive ==> l.todo.Some?)
    && (l.items[l.root] == ItemBlocked ==> l.goal == GoalBlocked)
    && (l.control.status == ControlBlocked <==> l.goal == GoalBlocked)
    && (l.goal == GoalBlocked && l.todo.Some? && !TodoEnds(l.todo.value.status) ==>
        l.todo.value.status == TodoBlocked && l.todo.value.claim.None?)
    && (l.items[l.root] == ItemCancelled ==> l.goal == GoalCancelled)
    && (l.items[l.root] == ItemCompleted ==> l.goal == GoalCompleted)
    && (!ItemEnds(l.items[l.root]) ==> !GoalEnds(l.goal))
  }

  /** Blocking before the Goal has started, and unblocking another task while the root stays blocked. */
  predicate BreaksProjection(l: Line, c: Command)
    requires l.root in l.items
  {
    || (Blocks(c) && l.goal == GoalDraft)
    || (c.UnblockItem? && c.item != l.root && l.items[l.root] == ItemBlocked)
  }

  /** Every command that commits keeps the projection consistent, except exactly those two. */
  lemma {:induction false} ConsistentExactly(l: Line, c: Command, m: Line)
    requires Inv(l) && Consistent(l) && Attempt(l, c) == Success(m) && m.root in m.items
    ensures Consistent(m) <==> !BreaksProjection(l, c)
  {
    hide Latest, Resolvable, FindKey, Keyed, SameDecision, Blank, ResumedTodo, ControlClaim, SourceRun, MaySupersede,
      TurnsOk, HandoffsDated, TransfersApart;
  }

  function ExampleLine(goal: GoalStatus, status: TodoStatus, control: ControlStatus, root: ItemStatus,
          child: ItemStatus): Line {
    Line(goal, Some(Todo(status, None, 0, 0, {"coordinator"})), [], [],
         Control(control, "coordinator", "", None), "root",
         map["root" := root, "child" := child])
  }

  lemma {:induction false} ExampleBlocksChild()
    ensures Next(ExampleLine(GoalActive, TodoPending, ControlOpen, ItemInProgress, ItemInProgress), BlockItem("child"))
            == ExampleLine(GoalBlocked, TodoBlocked, ControlBlocked, ItemInProgress, ItemBlocked)
  {
    var l := ExampleLine(GoalActive, TodoPending, ControlOpen, ItemInProgress, ItemInProgress);
    assert "root" != "child";
    assert Next(l, BlockItem("child")).items == map["root" := ItemInProgress, "child" := ItemBlocked];
  }

  lemma {:induction false} ExampleBlocksRoot()
    ensures Next(ExampleLine(GoalBlocked, TodoBlocked, ControlBlocked, ItemInProgress, ItemBlocked), BlockItem("root"))
            == ExampleLine(GoalBlocked, TodoBlocked, ControlBlocked, ItemBlocked, ItemBlocked)
  {
    var l := ExampleLine(GoalBlocked, TodoBlocked, ControlBlocked, ItemInProgress, ItemBlocked);
    assert "root" != "child";
    assert Next(l, BlockItem("root")).items == map["root" := ItemBlocked, "child" := ItemBlocked];
  }

  lemma {:induction false} ExampleUnblocksChild()
    ensures Next(ExampleLine(GoalBlocked, TodoBlocked, ControlBlocked, ItemBlocked, ItemBlocked), UnblockItem("child"))
            == ExampleLine(GoalActive, TodoPending, ControlOpen, ItemBlocked, ItemInProgress)
  {
    var l := ExampleLine(GoalBlocked, TodoBlocked, ControlBlocked, ItemBlocked, ItemBlocked);
    assert "root" != "child";
    assert Next(l, UnblockItem("child")).items == map["root" := ItemBlocked, "child" := ItemInProgress];
  }

  /** A child task and its root are blocked; unblocking the child reopens the Goal under a blocked root. */
  lemma {:induction false} UnblockedChildExample()
    ensures var a := ExampleLine(GoalActive, TodoPending, ControlOpen, ItemInProgress, ItemInProgress);
            var c := ExampleLine(GoalBlocked, TodoBlocked, ControlBlocked, ItemBlocked, ItemBlocked);
            var m := ExampleLine(GoalActive, TodoPending, ControlOpen, ItemBlocked, ItemInProgress);
            && Next(Next(a, BlockItem("child")), BlockItem("root")) == c && Next(c, UnblockItem("child")) == m
            && a.root in a.items && Consistent(a) && c.root in c.items && Consistent(c)
            && m.root in m.items && m.goal == GoalActive && m.items[m.root] == ItemBlocked && !Consistent(m)
  {
    ExampleBlocksChild();
    ExampleBlocksRoot();
    ExampleUnblocksChild();
    hide Next;
  }

  /** A root task blocked before its Goal is started: the Coordinator is blocked under a draft Goal. */
  lemma {:induction false} BlockedDraftExample(l: Line)
    requires Initial(l) && l.control.status == ControlOpen && l.items[l.root] == ItemTodo
    ensures Consistent(l) && Attempt(l, BlockItem(l.root)).Success?
    ensures Next(l, BlockItem(l.root)).goal == GoalDraft && l.root in Next(l, BlockItem(l.root)).items
    ensures !Consistent(Next(l, BlockItem(l.root)))
  {
    assert Attempt(l, BlockItem(l.root)).value.items[l.root] == ItemBlocked;
  }

  /** A pause and a resume hand the Todo back to its owner, or to nobody if the claim lapsed before any turn. */
  lemma {:induction false} PauseThenResume(l: Line, now: int, d: Directory, m: Line, n: Line)
    requires Inv(l) && l.todo.Some? && Paused(l) == Success(m) && Resumed(m, now, d) == Success(n)
    ensures n.goal == l.goal && n.handoffs == l.handoffs && n.turns == l.turns && n.items == l.items
    ensures n.todo.Some? && n.todo.value.lastTurn == l.todo.value.lastTurn
    ensures n.todo.value.claim.Some? ==>
              Owned(l.todo.value, n.todo.value.claim.value.owner) && n.todo.value.status == TodoClaimed
    ensures n.todo.value.claim.None? ==> n.todo.value.status == TodoPending
    ensures n.todo.value.claim.None? && l.todo.value.claim.Some? ==>
              !Live(l.todo.value.claim.value, now) && l.todo.value.lastTurn == 0
    ensures l.todo.value.claim.Some? && Live(l.todo.value.claim.value, now) ==>
              n.todo.value == l.todo.value.(status := TodoClaimed)
  {
    hide Latest, Resolvable;
  }
}
