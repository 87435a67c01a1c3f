/**
  The code workspace sessions: a pool shared by concurrent creations, closes and
  sweeps that give the lock up around every Gateway call
  (internal/application/code_workspace.go). Each locked section is one step.
 */
module SessionPool {
  import opened Wrappers

  const MAX_SESSIONS := 32

  /** A Gateway generation is one base address and token; a workspace lives in the generation that made it. */
  datatype Session = Session(generation: nat, workspace: nat, expires: int, closing: bool)

  /** createsDone is a channel: a fresh one is open, and closing it twice would panic. */
  datatype Pool = Pool(sessions: map<nat, Session>, closed: bool, inflight: nat, createsOpen: bool)

  /** A session someone has taken on to delete upstream. */
  datatype Handle = Handle(id: nat, workspace: nat)

  // ----- the locked sections -----

  predicate Discipline(p: Pool) {
    |p.sessions| <= MAX_SESSIONS && (p.createsOpen <==> p.inflight > 0)
  }

  function Begun(p: Pool): (q: Pool)
    ensures q.sessions == p.sessions && q.closed == p.closed
  {
    if p.closed then p else p.(inflight := p.inflight + 1, createsOpen := p.createsOpen || p.inflight == 0)
  }

  function Finished(p: Pool): (q: Pool)
    ensures q.sessions == p.sessions && q.closed == p.closed
  {
    if p.inflight == 0 then p
    else p.(inflight := p.inflight - 1, createsOpen := p.createsOpen && p.inflight > 1)
  }

  function Dropped(sessions: map<nat, Session>, generation: nat): map<nat, Session> {
    map id | id in sessions && sessions[id].generation == generation :: sessions[id]
  }

  predicate Due(session: Session, now: int) { session.closing || now >= session.expires }

  /** A sweep that reached the Gateway forgets other generations; what is due is marked as closing either way. */
  function MarkedAt(session: Session, endpoint: Option<nat>, now: int): Option<Session> {
    if endpoint.Some? && session.generation != endpoint.value then None
    else Some(if Due(session, now) then session.(closing := true) else session)
  }

  function Marked(sessions: map<nat, Session>, endpoint: Option<nat>, now: int): map<nat, Session> {
    map id | id in sessions && MarkedAt(sessions[id], endpoint, now).Some? ::
      MarkedAt(sessions[id], endpoint, now).value
  }

  predicate TakesOn(session: Session, endpoint: Option<nat>, now: int) {
    MarkedAt(session, endpoint, now).Some? && Due(session, now)
  }

  /** Without a reachable Gateway nothing is deleted this time round. */
  function TakenOn(sessions: map<nat, Session>, endpoint: Option<nat>, now: int): set<Handle> {
    if endpoint.None? then {}
    else set id | id in sessions && TakesOn(sessions[id], endpoint, now) :: Handle(id, sessions[id].workspace)
  }

  predicate HoldsAt(sessions: map<nat, Session>, id: nat, o: Option<Session>) {
    if o.Some? then id in sessions && sessions[id] == o.value else id !in sessions
  }

  lemma {:induction false} MarkedIs(given: map<nat, Session>, sessions: map<nat, Session>, endpoint: Option<nat>,
          now: int)
    requires sessions.Keys <= given.Keys
    requires forall id :: id in given ==> HoldsAt(sessions, id, MarkedAt(given[id], endpoint, now))
    ensures sessions == Marked(given, endpoint, now)
  {
    hide MarkedAt;
  }

  lemma {:induction false} TakenOnIs(given: map<nat, Session>, taken: set<Handle>, endpoint: Option<nat>, now: int)
    requires forall h :: h in taken <==>
              h.id in given && TakesOn(given[h.id], endpoint, now) && h.workspace == given[h.id].workspace
    ensures TakenOn(given, endpoint, now) == if endpoint.None? then {} else taken
  {
    hide TakesOn;
    if endpoint.Some? {
      forall h | h in taken
        ensures h in TakenOn(given, endpoint, now)
      {
        assert h == Handle(h.id, given[h.id].workspace);
      }
    }
  }

  function AllHandles(sessions: map<nat, Session>): set<Handle> {
    set id | id in sessions :: Handle(id, sessions[id].workspace)
  }

  // ----- the service -----

  class CodeWorkspaceService {
    var sessions: map<nat, Session>
    var closed: bool
    var inflight: nat
    var createsOpen: bool

    constructor ()
      ensures Discipline(State()) && State() == Pool(map[], false, 0, false)
    {
      sessions, closed, inflight, createsOpen := map[], false, 0, false;
    }

    ghost function State(): Pool
      reads this
    {
      Pool(sessions, closed, inflight, createsOpen)
    }

    method BeginCreate() returns (ok: bool)
      modifies this
      ensures State() == Begun(old(State())) && ok == !old(closed)
    {
      if closed { return false; }
      if inflight == 0 { createsOpen := true; }
      inflight := inflight + 1;
      ok := true;
    }

    /** The channel is closed only by the last creation in flight, and is open until then. */
    method FinishCreate()
      requires Discipline(State())
      modifies this
      ensures State() == Finished(old(State()))
    {
      if inflight > 0 {
        inflight := inflight - 1;
        if inflight == 0 {
          assert createsOpen;
          createsOpen := false;
        }
      }
    }

    method DropStaleSessions(generation: nat)
      modifies this`sessions
      ensures sessions == Dropped(old(sessions), generation)
    {
      ghost var given := sessions;
      var left := sessions.Keys;
      while left != {}
        invariant left <= given.Keys && sessions.Keys <= given.Keys
        invariant forall id :: id in given ==> (id in sessions <==> id in left || given[id].generation == generation)
        invariant forall id :: id in sessions ==> sessions[id] == given[id]
        decreases |left|
      {
        var id :| id in left;
        left := left - {id};
        if sessions[id].generation != generation { sessions := sessions - {id}; }
      }
    }

    method CapacityReached() returns (full: bool)
      ensures full <==> |sessions| >= MAX_SESSIONS
    {
      full := |sessions| >= MAX_SESSIONS;
    }

    /** The last step of Create: a closed or full pool takes no session. */
    method Publish(id: nat, session: Session) returns (ok: bool)
      requires id !in sessions
      modifies this`sessions
      ensures ok <==> !closed && |old(sessions)| < MAX_SESSIONS
      ensures sessions == if ok then old(sessions)[id := session] else old(sessions)
    {
      if closed { return false; }
      if |sessions| >= MAX_SESSIONS { return false; }
      sessions := sessions[id := session];
      ok := true;
    }

    /** The second locked section of sweepExpired. */
    method SweepMark(endpoint: Option<nat>, now: int) returns (expired: set<Handle>)
      modifies this`sessions
      ensures sessions == Marked(old(sessions), endpoint, now)
      ensures expired == TakenOn(old(sessions), endpoint, now)
    {
      hide Marked, TakenOn;
      ghost var given := sessions;
      var left := sessions.Keys;
      expired := {};
      while left != {}
        invariant left <= sessions.Keys <= given.Keys
        invariant forall id :: id in left ==> sessions[id] == given[id]
        invariant forall id :: id in given && id !in left ==> HoldsAt(sessions, id, MarkedAt(given[id], endpoint, now))
        invariant forall h :: h in expired <==> h.id in given && h.id !in left && TakesOn(given[h.id], endpoint, now)
                                                && h.workspace == given[h.id].workspace
        decreases |left|
      {
        var id :| id in left;
        left := left - {id};
        var session := sessions[id];
        if endpoint.Some? && endpoint.value != session.generation {
          sessions := sessions - {id};
        } else if session.closing || !(now < session.expires) {
          sessions := sessions[id := session.(closing := true)];
          expired := expired + {Handle(id, session.workspace)};
        }
        assert HoldsAt(sessions, id, MarkedAt(given[id], endpoint, now));
      }
      MarkedIs(given, sessions, endpoint, now);
      TakenOnIs(given, expired, endpoint, now);
      if endpoint.None? { return {}; }
    }

    /** The locked section after a successful upstream deletion. */
    method Forget(id: nat)
      modifies this`sessions
      ensures sessions == old(sessions) - {id}
    {
      if id in sessions { sessions := sessions - {id}; }
    }

    method CloseSessionMark(id: nat) returns (taken: Option<Handle>)
      modifies this`sessions
      ensures old(sessions).Keys == sessions.Keys
      ensures id in sessions ==> taken == Some(Handle(id, sessions[id].workspace))
      ensures id !in sessions ==> taken == None
      ensures sessions == if id in old(sessions) then old(sessions)[id := old(sessions)[id].(closing := true)]
                else old(sessions)
    {
      if id !in sessions { return None; }
      sessions := sessions[id := sessions[id].(closing := true)];
      return Some(Handle(id, sessions[id].workspace));
    }

    method CloseMark()
      modifies this`closed
      ensures closed
    {
      closed := true;
    }

    /** Close takes every session out of the pool before deleting any of them upstream. */
    method CloseDrain() returns (drained: set<Handle>)
      modifies this`sessions
      ensures sessions == map[] && drained == AllHandles(old(sessions))
    {
      ghost var given := sessions;
      drained := {};
      while sessions != map[]
        invariant sessions.Keys <= given.Keys
        invariant forall id :: id in sessions ==> sessions[id] == given[id]
        invariant forall h :: h in drained <==>
                  h.id in given && h.id !in sessions && h == Handle(h.id, given[h.id].workspace)
        decreases |sessions|
      {
        var id :| id in sessions;
        drained := drained + {Handle(id, sessions[id].workspace)};
        sessions := sessions - {id};
      }
    }
  }

  // ----- the interleaving -----

  /**
    Where one Create is between its locked sections; Reached has read the Gateway endpoint, Holding has a
    workspace.
   */
  datatype Phase = Entered | Reached(generation: nat) | Cleared(generation: nat) | Admitted(generation: nat)
                 | Holding(generation: nat, workspace: nat) | Refused(generation: nat, workspace: nat) | Leaving

  /** A request under way: it has copied a session, and may have found the Gateway to be another generation. */
  datatype Look = Found(id: nat, generation: nat) | Differs(id: nat, generation: nat)

  /** made names every upstream workspace ever created; hands are the deletions started and not yet attempted. */
  datatype System = System(
    pool: Pool, live: nat, made: map<nat, nat>, attempted: set<nat>, creators: map<nat, Phase>,
    sweeps: map<nat, Option<nat>>, looks: map<nat, Look>, hands: multiset<Handle>, usedIds: set<nat>)

  datatype Event =
    | Restart
    | Enter(t: nat)
    | ReachGateway(t: nat)
    | DropStale(t: nat)
    | CheckCapacity(t: nat)
    | MakeUpstream(t: nat, workspace: nat)
    | LoseResponse(t: nat, workspace: nat)
    | GiveUp(t: nat)
    | PublishSession(t: nat, id: nat, expires: int)
    | Discard(t: nat)
    | Leave(t: nat)
    | ReadEndpoint(k: nat, reachable: bool)
    | Sweep(k: nat, now: int)
    | LookUp(r: nat, id: nat)
    | CompareEndpoint(r: nat, reachable: bool)
    | DiscardStale(r: nat)
    | CloseOne(id: nat)
    | TryDelete(handle: Handle, ok: bool)
    | CloseAll
    | Drain(waited: bool)

  predicate At(s: System, t: nat) { t in s.creators }

  function Move(s: System, t: nat, phase: Phase): System { s.(creators := s.creators[t := phase]) }

  predicate Held(phase: Phase) { phase.Holding? || phase.Refused? }

  predicate OfCreation(e: Event) {
    || e.Enter? || e.ReachGateway? || e.DropStale? || e.CheckCapacity? || e.MakeUpstream? || e.LoseResponse?
    || e.GiveUp? || e.PublishSession? || e.Discard? || e.Leave?
  }

  /** One step; a step whose turn it is not leaves everything alone. */
  function Step(s: System, e: Event): System {
    if OfCreation(e) then CreationStep(s, e) else UpkeepStep(s, e)
  }

  /**
    One section of a Create. MakeUpstream is a request to the Gateway that is answered; LoseResponse is one the
    Gateway has served although the caller sees an error, so the Create returns without knowing the workspace.
   */
  function CreationStep(s: System, e: Event): System
    requires OfCreation(e)
  {
    match e
    case Enter(t) =>
      if At(s, t) || s.pool.closed then s
      else s.(pool := Begun(s.pool), creators := s.creators[t := Entered])
    case ReachGateway(t) =>
      if At(s, t) && s.creators[t] == Entered then Move(s, t, Reached(s.live)) else s
    case DropStale(t) =>
      if At(s, t) && s.creators[t].Reached? then
        var g := s.creators[t].generation;
        Move(s, t, Cleared(g)).(pool := s.pool.(sessions := Dropped(s.pool.sessions, g)))
      else s
    case CheckCapacity(t) =>
      if At(s, t) && s.creators[t].Cleared? then
        Move(s, t, if |s.pool.sessions| >= MAX_SESSIONS then Leaving else Admitted(s.creators[t].generation))
      else s
    case MakeUpstream(t, w) =>
      if At(s, t) && s.creators[t] == Admitted(s.live) && w !in s.made then
        Move(s, t, Holding(s.live, w)).(made := s.made[w := s.live])
      else s
    case LoseResponse(t, w) =>
      if At(s, t) && s.creators[t] == Admitted(s.live) && w !in s.made then
        Move(s, t, Leaving).(made := s.made[w := s.live])
      else s
    case GiveUp(t) =>
      if At(s, t) && !Held(s.creators[t]) then Move(s, t, Leaving) else s
    case PublishSession(t, id, expires) =>
      if At(s, t) && s.creators[t].Holding? && id !in s.usedIds then
        var g, w := s.creators[t].generation, s.creators[t].workspace;
        if s.pool.closed || |s.pool.sessions| >= MAX_SESSIONS then
          Move(s, t, Refused(g, w)).(usedIds := s.usedIds + {id})
        else Move(s, t, Leaving).(pool := s.pool.(sessions := s.pool.sessions[id := Session(g, w, expires, false)]),
                                  usedIds := s.usedIds + {id})
      else s
    case Discard(t) =>
      if At(s, t) && Held(s.creators[t]) then Move(s, t, Leaving).(attempted := s.attempted + {s.creators[t].workspace})
      else s
    case Leave(t) =>
      if At(s, t) && s.creators[t] == Leaving then s.(pool := Finished(s.pool), creators := s.creators - {t}) else s
  }

  /** Restarts, sweeps, requests, deletions and Close. */
  function UpkeepStep(s: System, e: Event): (m: System)
    requires !OfCreation(e)
    ensures m.creators == s.creators && m.made == s.made
    ensures m.pool.inflight == s.pool.inflight && m.pool.createsOpen == s.pool.createsOpen
  {
    match e
    case Restart => s.(live := s.live + 1)
    case ReadEndpoint(k, reachable) =>
      if s.pool.sessions == map[] || k in s.sweeps then s
      else s.(sweeps := s.sweeps[k := if reachable then Some(s.live) else None])
    case Sweep(k, now) =>
      if k in s.sweeps then
        s.(sweeps := s.sweeps - {k}, pool := s.pool.(sessions := Marked(s.pool.sessions, s.sweeps[k], now)),
           hands := s.hands + multiset(TakenOn(s.pool.sessions, s.sweeps[k], now)))
      else s
    case LookUp(r, id) =>
      if id in s.pool.sessions && r !in s.looks then
        s.(looks := s.looks[r := Found(id, s.pool.sessions[id].generation)])
      else s
    case CompareEndpoint(r, reachable) =>
      if r in s.looks && s.looks[r].Found? then
        var look := s.looks[r];
        s.(looks := if reachable && look.generation != s.live then s.looks[r := Differs(look.id, look.generation)]
                    else s.looks - {r})
      else s
    case DiscardStale(r) =>
      if r in s.looks && s.looks[r].Differs? then
        s.(looks := s.looks - {r}, pool := s.pool.(sessions := s.pool.sessions - {s.looks[r].id}))
      else s
    case CloseOne(id) =>
      if id in s.pool.sessions then
        s.(pool := s.pool.(sessions := s.pool.sessions[id := s.pool.sessions[id].(closing := true)]),
           hands := s.hands + multiset{Handle(id, s.pool.sessions[id].workspace)})
      else s
    case TryDelete(h, ok) =>
      if h in s.hands then
        s.(hands := s.hands - multiset{h}, attempted := s.attempted + {h.workspace},
           pool := if ok then s.pool.(sessions := s.pool.sessions - {h.id}) else s.pool)
      else s
    case CloseAll => s.(pool := s.pool.(closed := true))
    case Drain(waited) =>
      if s.pool.closed && (waited ==> !s.pool.createsOpen) then
        s.(pool := s.pool.(sessions := map[]), hands := s.hands + multiset(AllHandles(s.pool.sessions)))
      else s
  }

  function Play(s: System, events: seq<Event>): System
    decreases |events|
  {
    if events == [] then s else Play(Step(s, events[0]), events[1..])
  }

  // ----- what every interleaving keeps -----

  predicate Tracked(s: System, w: nat) {
    exists id :: id in s.pool.sessions && s.pool.sessions[id].workspace == w
  }

  predicate InCreation(s: System, w: nat) {
    exists t :: t in s.creators && Held(s.creators[t]) && s.creators[t].workspace == w
  }

  predicate InHand(s: System, w: nat) {
    exists h :: h in s.hands && h.workspace == w
  }

  /**
    Each workspace is remembered, being created or deleted right now, had a deletion attempted, or died with
    its generation.
   */
  predicate AccountedFor(s: System, w: nat) {
    w in s.made ==> Tracked(s, w) || InCreation(s, w) || InHand(s, w) || w in s.attempted || s.made[w] < s.live
  }

  ghost predicate NothingLost(s: System) {
    forall w: nat :: AccountedFor(s, w)
  }

  predicate SessionOk(s: System, id: nat) {
    id in s.pool.sessions ==>
      && id in s.usedIds && s.pool.sessions[id].workspace in s.made
      && s.made[s.pool.sessions[id].workspace] == s.pool.sessions[id].generation
      && !InCreation(s, s.pool.sessions[id].workspace)
  }

  predicate CreatorOk(s: System, t: nat) {
    t in s.creators && Held(s.creators[t]) ==>
      s.creators[t].workspace in s.made && s.made[s.creators[t].workspace] == s.creators[t].generation
  }

  predicate SessionsApart(s: System) {
    forall i, j :: i in s.pool.sessions && j in s.pool.sessions && i != j ==>
      s.pool.sessions[i].workspace != s.pool.sessions[j].workspace
  }

  predicate CreatorsApart(s: System) {
    forall t, u :: t in s.creators && u in s.creators && t != u && Held(s.creators[t]) && Held(s.creators[u]) ==>
      s.creators[t].workspace != s.creators[u].workspace
  }

  predicate HandsOk(s: System) {
    forall h :: h in s.hands ==>
      h.id in s.usedIds && (h.id in s.pool.sessions ==> s.pool.sessions[h.id].workspace == h.workspace)
  }

  predicate LooksOk(s: System) {
    forall r :: r in s.looks ==>
      && s.looks[r].id in s.usedIds && s.looks[r].generation <= s.live
      && (s.looks[r].Differs? ==> s.looks[r].generation < s.live)
      && (s.looks[r].id in s.pool.sessions ==> s.pool.sessions[s.looks[r].id].generation == s.looks[r].generation)
  }

  predicate MadeOk(s: System) { forall w :: w in s.made ==> s.made[w] <= s.live }

  /** Only workspaces that were made are deleted. */
  predicate DeletesOk(s: System) {
    s.attempted <= s.made.Keys && forall h :: h in s.hands ==> h.workspace in s.made
  }

  ghost predicate Inv(s: System) {
    && Discipline(s.pool) && s.pool.inflight == |s.creators|
    && (forall id: nat :: SessionOk(s, id)) && (forall t: nat :: CreatorOk(s, t))
    && SessionsApart(s) && CreatorsApart(s) && HandsOk(s) && MadeOk(s) && LooksOk(s)
    && DeletesOk(s)
  }

  predicate Initial(s: System) {
    && s.pool == Pool(map[], false, 0, false) && s.made == map[] && s.attempted == {} && s.creators == map[]
    && s.hands == multiset{} && s.usedIds == {} && s.looks == map[]
  }

  lemma {:induction false} Fewer<V>(a: map<nat, V>, b: map<nat, V>)
    requires a.Keys <= b.Keys
    ensures |a| <= |b|
    decreases |a|
  {
    if a != map[] {
      var k :| k in a;
      Fewer(a - {k}, b - {k});
      assert (a - {k}).Keys == a.Keys - {k} && (b - {k}).Keys == b.Keys - {k};
    }
  }

  lemma {:induction false} OneLess(creators: map<nat, Phase>, t: nat)
    requires t in creators
    ensures |creators - {t}| == |creators| - 1
  {
    assert (creators - {t}).Keys == creators.Keys - {t};
  }

  /** createsDone is open exactly while a creation is in flight, so it is never closed twice. */
  lemma {:induction false} CreationsCounted(s: System, e: Event)
    requires (s.pool.createsOpen <==> s.pool.inflight > 0) && s.pool.inflight == |s.creators|
    ensures Step(s, e).pool.createsOpen <==> Step(s, e).pool.inflight > 0
    ensures Step(s, e).pool.inflight == |Step(s, e).creators|
  {
    hide Dropped, Marked, TakenOn, AllHandles;
    if e.Leave? {
      if At(s, e.t) { OneLess(s.creators, e.t); }
    } else if !e.Enter? {
      OthersOnlyMove(s, e);
      hide Step;
      assert |Step(s, e).creators.Keys| == |s.creators.Keys|;
    }
  }

  lemma {:induction false} OthersOnlyMove(s: System, e: Event)
    requires !e.Enter? && !e.Leave?
    ensures Step(s, e).creators.Keys == s.creators.Keys
    ensures Step(s, e).pool.createsOpen == s.pool.createsOpen && Step(s, e).pool.inflight == s.pool.inflight
  {
    if OfCreation(e) {
      hide UpkeepStep, Dropped, Begun, Finished;
    } else {
      hide CreationStep, Marked, TakenOn, AllHandles;
    }
  }

  lemma {:induction false} MadeStaysOk(s: System, e: Event)
    requires MadeOk(s)
    ensures MadeOk(Step(s, e))
    ensures forall w :: w in s.made ==> w in Step(s, e).made && Step(s, e).made[w] == s.made[w]
  {
  }

  lemma {:induction false} CreatorsStayOk(s: System, e: Event, t: nat)
    requires CreatorOk(s, t)
    ensures CreatorOk(Step(s, e), t)
  {
    if OfCreation(e) {
      hide UpkeepStep, Dropped, Begun, Finished;
    } else {
      hide UpkeepStep, CreationStep;
    }
  }

  lemma {:induction false} CreatorsStayApart(s: System, e: Event)
    requires CreatorsApart(s) && forall t: nat :: CreatorOk(s, t)
    ensures CreatorsApart(Step(s, e))
  {
    hide Dropped, UpkeepStep, Begun, Finished;
    if e.MakeUpstream? {
      forall u | u in s.creators && Held(s.creators[u])
        ensures s.creators[u].workspace in s.made
      {
        assert CreatorOk(s, u);
      }
    }
  }

  lemma {:induction false} Holds(s: System, t: nat)
    requires t in s.creators && Held(s.creators[t])
    ensures InCreation(s, s.creators[t].workspace)
  {
  }

  /** Only a creation in progress takes a workspace in, and only a new one. */
  lemma {:induction false} CreationIsNew(s: System, e: Event, w: nat)
    requires InCreation(Step(s, e), w)
    ensures InCreation(s, w) || (e.MakeUpstream? && e.workspace == w && w !in s.made)
  {
    hide Dropped, UpkeepStep, Begun, Finished;
    var t :| t in Step(s, e).creators && Held(Step(s, e).creators[t]) && Step(s, e).creators[t].workspace == w;
    if t in s.creators && Held(s.creators[t]) { Holds(s, t); }
  }

  /** A published workspace has left its creation. */
  lemma {:induction false} PublishedLeaves(s: System, e: Event, w: nat)
    requires e.PublishSession? && At(s, e.t) && s.creators[e.t].Holding? && s.creators[e.t].workspace == w
    requires CreatorsApart(s) && Step(s, e).creators[e.t] == Leaving
    ensures !InCreation(Step(s, e), w)
  {
    forall u | u in s.creators && u != e.t && Held(s.creators[u])
      ensures s.creators[u].workspace != w
    {
    }
  }

  /** The generation a step compares the sessions with, if it drops the others. */
  function Compares(s: System, e: Event): Option<nat> {
    match e
    case DropStale(t) => if At(s, t) && s.creators[t].Reached? then Some(s.creators[t].generation) else None
    case Sweep(k, _) => if k in s.sweeps then s.sweeps[k] else None
    case _ => None
  }

  predicate Publishes(s: System, e: Event, id: nat) {
    && e.PublishSession? && e.id == id && At(s, e.t) && s.creators[e.t].Holding? && id !in s.usedIds
    && !s.pool.closed && |s.pool.sessions| < MAX_SESSIONS
  }

  /** A session in the pool was there before, or is the one just published. */
  lemma {:induction false} SessionComesFrom(s: System, e: Event, id: nat)
    requires id in Step(s, e).pool.sessions
    ensures || (&& id in s.pool.sessions && Step(s, e).pool.sessions[id].workspace == s.pool.sessions[id].workspace
                && Step(s, e).pool.sessions[id].generation == s.pool.sessions[id].generation)
            || (&& Publishes(s, e, id) && Step(s, e).creators[e.t] == Leaving
                && Step(s, e).pool.sessions[id].workspace == s.creators[e.t].workspace
                && Step(s, e).pool.sessions[id].generation == s.creators[e.t].generation)
  {
    if OfCreation(e) {
      hide UpkeepStep, Dropped;
      if e.DropStale? && At(s, e.t) && s.creators[e.t].Reached? {
        DroppedKeeps(s.pool.sessions, s.creators[e.t].generation, id);
      }
    } else {
      hide CreationStep, Marked, TakenOn, AllHandles;
      if e.Sweep? && e.k in s.sweeps { MarkedKeeps(s.pool.sessions, s.sweeps[e.k], e.now, id); }
    }
  }

  lemma {:induction false} DroppedKeeps(sessions: map<nat, Session>, generation: nat, id: nat)
    ensures id in Dropped(sessions, generation) <==> id in sessions && sessions[id].generation == generation
    ensures id in Dropped(sessions, generation) ==> Dropped(sessions, generation)[id] == sessions[id]
  {
  }

  lemma {:induction false} MarkedKeeps(sessions: map<nat, Session>, endpoint: Option<nat>, now: int, id: nat)
    ensures id in Marked(sessions, endpoint, now) <==>
            id in sessions && (endpoint.Some? ==> sessions[id].generation == endpoint.value)
    ensures id in Marked(sessions, endpoint, now) ==>
              && Marked(sessions, endpoint, now)[id].workspace == sessions[id].workspace
              && Marked(sessions, endpoint, now)[id].generation == sessions[id].generation
  {
  }

  /** A deletion in hand was there before, or is of a session still in the pool. */
  lemma {:induction false} HandsComeFrom(s: System, e: Event, h: Handle)
    requires h in Step(s, e).hands
    ensures || h in s.hands
            || (&& h.id in s.pool.sessions && s.pool.sessions[h.id].workspace == h.workspace
                && (Compares(s, e).Some? ==> s.pool.sessions[h.id].generation == Compares(s, e).value))
  {
    hide Marked, Dropped, Begun, Finished;
  }

  lemma {:induction false} HandsStayOk(s: System, e: Event)
    requires HandsOk(s) && forall id: nat :: SessionOk(s, id)
    ensures HandsOk(Step(s, e))
  {
    hide Step, InCreation;
    UsedGrows(s, e);
    var m := Step(s, e);
    forall h | h in m.hands
      ensures h.id in m.usedIds && (h.id in m.pool.sessions ==> m.pool.sessions[h.id].workspace == h.workspace)
    {
      HandsComeFrom(s, e, h);
      assert SessionOk(s, h.id);
      if h.id in m.pool.sessions { SessionComesFrom(s, e, h.id); }
    }
  }

  /** A request found to be outlived stays so: its session, if still there, is of a generation gone by. */
  lemma {:induction false} LooksStayOk(s: System, e: Event)
    requires LooksOk(s) && MadeOk(s) && forall id: nat :: SessionOk(s, id)
    ensures LooksOk(Step(s, e))
  {
    var m := Step(s, e);
    UsedGrows(s, e);
    AttemptsStay(s, e);
    forall r | r in m.looks
      ensures m.looks[r].id in m.usedIds && m.looks[r].generation <= m.live
      ensures m.looks[r].Differs? ==> m.looks[r].generation < m.live
    {
      LookComesFrom(s, e, r);
      assert SessionOk(s, m.looks[r].id);
    }
    hide Step, InCreation, Publishes;
    forall r | r in m.looks && m.looks[r].id in m.pool.sessions
      ensures m.pool.sessions[m.looks[r].id].generation == m.looks[r].generation
    {
      LookComesFrom(s, e, r);
      assert SessionOk(s, m.looks[r].id);
      SessionComesFrom(s, e, m.looks[r].id);
      NotPublishedTwice(s, e, m.looks[r].id);
    }
  }

  lemma {:induction false} DeletesStayOk(s: System, e: Event)
    requires DeletesOk(s) && MadeOk(s) && (forall id: nat :: SessionOk(s, id)) && forall t: nat :: CreatorOk(s, t)
    ensures DeletesOk(Step(s, e))
  {
    MadeStaysOk(s, e);
    AttemptsCome(s, e);
    hide Step, InCreation;
    forall h | h in Step(s, e).hands
      ensures h.workspace in Step(s, e).made
    {
      HandsComeFrom(s, e, h);
      assert SessionOk(s, h.id);
    }
    if e.Discard? { assert CreatorOk(s, e.t); }
  }

  lemma {:induction false} AttemptsCome(s: System, e: Event)
    ensures Step(s, e).attempted <= s.attempted
              + (if e.TryDelete? && e.handle in s.hands then {e.handle.workspace} else {})
              + (if e.Discard? && At(s, e.t) && Held(s.creators[e.t]) then {s.creators[e.t].workspace} else {})
  {
    if OfCreation(e) {
      hide UpkeepStep, Dropped, Begun, Finished;
    } else {
      hide CreationStep, Marked, TakenOn, AllHandles;
    }
  }

  lemma {:induction false} NotPublishedTwice(s: System, e: Event, id: nat)
    requires id in s.usedIds
    ensures !Publishes(s, e, id)
  {
  }

  lemma {:induction false} LookComesFrom(s: System, e: Event, r: nat)
    requires r in Step(s, e).looks
    ensures var look := Step(s, e).looks[r];
            || (r in s.looks && s.looks[r] == look)
            || (r in s.looks && s.looks[r] == Found(look.id, look.generation) && look.generation != s.live
                && Step(s, e).live == s.live)
            || (look.Found? && look.id in s.pool.sessions && look.generation == s.pool.sessions[look.id].generation)
  {
    if OfCreation(e) {
      hide UpkeepStep, Dropped, Begun, Finished;
    } else {
      hide CreationStep, Marked, TakenOn, AllHandles;
    }
  }

  lemma {:induction false} SessionsBounded(s: System, e: Event)
    requires |s.pool.sessions| <= MAX_SESSIONS
    ensures |Step(s, e).pool.sessions| <= MAX_SESSIONS
  {
    hide Step;
    var m := Step(s, e).pool.sessions;
    var bound := if e.PublishSession? && Publishes(s, e, e.id) then s.pool.sessions[e.id := Session(0, 0, 0, false)]
      else s.pool.sessions;
    forall id | id in m
      ensures id in bound
    {
      SessionComesFrom(s, e, id);
    }
    Fewer(m, bound);
  }

  lemma {:induction false} SessionsStayApart(s: System, e: Event)
    requires SessionsApart(s) && forall id: nat :: SessionOk(s, id)
    ensures SessionsApart(Step(s, e))
  {
    hide Step, InCreation;
    var m := Step(s, e);
    forall i, j | i in m.pool.sessions && j in m.pool.sessions && i != j
      ensures m.pool.sessions[i].workspace != m.pool.sessions[j].workspace
    {
      SessionComesFrom(s, e, i);
      SessionComesFrom(s, e, j);
      assert SessionOk(s, i) && SessionOk(s, j);
      if Publishes(s, e, i) || Publishes(s, e, j) { Holds(s, e.t); }
    }
  }

  lemma {:induction false} UsedGrows(s: System, e: Event)
    ensures s.usedIds <= Step(s, e).usedIds && (e.PublishSession? && Publishes(s, e, e.id) ==>
              e.id in Step(s, e).usedIds)
  {
    hide TakenOn, AllHandles, Dropped, Marked;
  }

  lemma {:induction false} SessionStaysOk(s: System, e: Event, id: nat)
    requires Inv(s)
    ensures SessionOk(Step(s, e), id)
  {
    var m := Step(s, e);
    assert SessionOk(s, id);
    if id in m.pool.sessions {
      SessionComesFrom(s, e, id);
      MadeStaysOk(s, e);
      UsedGrows(s, e);
      hide Step, InCreation, Discipline, SessionsApart, HandsOk, MadeOk;
      var w := m.pool.sessions[id].workspace;
      if Publishes(s, e, id) {
        assert CreatorOk(s, e.t);
        PublishedLeaves(s, e, w);
      } else if InCreation(m, w) {
        CreationIsNew(s, e, w);
      }
    }
  }

  /** Whatever the interleaving: at most 32 sessions, no double close, and each workspace in one place. */
  lemma {:induction false} InvStays(s: System, e: Event)
    requires Inv(s)
    ensures Inv(Step(s, e))
  {
    hide Step, SessionsApart, CreatorsApart, HandsOk, MadeOk, LooksOk, DeletesOk, SessionOk, CreatorOk;
    CreationsCounted(s, e);
    LooksStayOk(s, e);
    DeletesStayOk(s, e);
    SessionsBounded(s, e);
    CreatorsStayApart(s, e);
    HandsStayOk(s, e);
    SessionsStayApart(s, e);
    MadeStaysOk(s, e);
    forall id: nat
      ensures SessionOk(Step(s, e), id)
    {
      SessionStaysOk(s, e, id);
    }
    forall t: nat
      ensures CreatorOk(Step(s, e), t)
    {
      CreatorsStayOk(s, e, t);
    }
  }

  lemma {:induction false} InitiallySound(s: System)
    requires Initial(s)
    ensures Inv(s) && NothingLost(s)
  {
  }

  lemma {:induction false} PoolStaysSound(s: System, events: seq<Event>)
    requires Inv(s)
    ensures Inv(Play(s, events))
    decreases |events|
  {
    hide Inv, Step;
    if events != [] {
      InvStays(s, events[0]);
      PoolStaysSound(Step(s, events[0]), events[1..]);
    }
  }

  // ----- which upstream workspaces can be lost -----

  /** A session that is still alive upstream and that nobody has started to delete. */
  predicate Exposed(s: System, id: nat) {
    && id in s.pool.sessions && s.pool.sessions[id].generation == s.live
    && s.pool.sessions[id].workspace !in s.attempted && !InHand(s, s.pool.sessions[id].workspace)
  }

  /** A drop with an endpoint read before the Gateway restarted, while a newer session is already in the pool. */
  predicate DropsLive(s: System, e: Event) {
    && Compares(s, e).Some? && Compares(s, e).value != s.live
    && exists id :: id in s.pool.sessions && Exposed(s, id)
  }

  /** A creation that makes a workspace and never hears of it. */
  predicate Orphans(s: System, e: Event) {
    e.LoseResponse? && At(s, e.t) && s.creators[e.t] == Admitted(s.live) && e.workspace !in s.made
  }

  lemma {:induction false} AttemptsStay(s: System, e: Event)
    ensures s.attempted <= Step(s, e).attempted && s.live <= Step(s, e).live
    ensures !e.Restart? ==> Step(s, e).live == s.live
    ensures e.TryDelete? && e.handle in s.hands ==> e.handle.workspace in Step(s, e).attempted
    ensures e.Discard? && At(s, e.t) && Held(s.creators[e.t]) ==> s.creators[e.t].workspace in Step(s, e).attempted
  {
    if OfCreation(e) {
      hide UpkeepStep, Dropped, Begun, Finished;
    } else {
      hide CreationStep, Marked, TakenOn, AllHandles;
    }
  }

  lemma {:induction false} HandsStay(s: System, e: Event, h: Handle)
    requires h in s.hands && !(e.TryDelete? && e.handle == h)
    ensures h in Step(s, e).hands
  {
    if OfCreation(e) {
      hide UpkeepStep, Dropped, Begun, Finished;
    } else {
      hide CreationStep, Marked, TakenOn, AllHandles;
    }
  }

  lemma {:induction false} HandStays(s: System, e: Event, w: nat)
    requires InHand(s, w)
    ensures InHand(Step(s, e), w) || w in Step(s, e).attempted
  {
    AttemptsStay(s, e);
    var h :| h in s.hands && h.workspace == w;
    if !(e.TryDelete? && e.handle == h) {
      HandsStay(s, e, h);
      hide Step;
      assert InHand(Step(s, e), w);
    }
  }

  lemma {:induction false} CreationStays(s: System, e: Event, w: nat)
    requires InCreation(s, w)
    ensures InCreation(Step(s, e), w) || Tracked(Step(s, e), w) || w in Step(s, e).attempted
  {
    hide Dropped, UpkeepStep, Begun, Finished;
    var t :| t in s.creators && Held(s.creators[t]) && s.creators[t].workspace == w;
    var m := Step(s, e);
    if t in m.creators && Held(m.creators[t]) {
      Holds(m, t);
    } else if e.PublishSession? {
      assert m.pool.sessions[e.id].workspace == w;
    }
  }

  /** A session leaves the pool by a drop, a drain, or after its deletion was attempted. */
  lemma {:induction false} SessionLeaves(s: System, e: Event, id: nat)
    requires id in s.pool.sessions && id in s.usedIds
    requires e.TryDelete? && e.handle in s.hands && e.handle.id == id ==>
              e.handle.workspace == s.pool.sessions[id].workspace
    ensures || (id in Step(s, e).pool.sessions
              && Step(s, e).pool.sessions[id].workspace == s.pool.sessions[id].workspace)
            || (Compares(s, e).Some? && s.pool.sessions[id].generation != Compares(s, e).value)
            || s.pool.sessions[id].workspace in Step(s, e).attempted
            || Handle(id, s.pool.sessions[id].workspace) in Step(s, e).hands
            || (e.DiscardStale? && e.r in s.looks && s.looks[e.r].Differs? && s.looks[e.r].id == id)
  {
    if OfCreation(e) {
      hide UpkeepStep, Dropped;
      if e.DropStale? && At(s, e.t) && s.creators[e.t].Reached? {
        DroppedKeeps(s.pool.sessions, s.creators[e.t].generation, id);
      }
    } else {
      hide CreationStep, Marked, TakenOn;
      if e.Sweep? && e.k in s.sweeps { MarkedKeeps(s.pool.sessions, s.sweeps[e.k], e.now, id); }
      if e.Drain? { assert Handle(id, s.pool.sessions[id].workspace) in AllHandles(s.pool.sessions); }
    }
  }

  lemma {:induction false} DroppedSafely(s: System, e: Event, id: nat)
    requires !DropsLive(s, e) && Compares(s, e).Some? && id in s.pool.sessions
    requires s.pool.sessions[id].generation != Compares(s, e).value
    ensures || s.pool.sessions[id].generation != s.live || s.pool.sessions[id].workspace in s.attempted
            || InHand(s, s.pool.sessions[id].workspace)
    ensures Step(s, e).live == s.live
  {
  }

  lemma {:induction false} TrackedStays(s: System, e: Event, w: nat)
    requires Inv(s) && Tracked(s, w) && !DropsLive(s, e)
    ensures AccountedFor(Step(s, e), w)
  {
    var id :| id in s.pool.sessions && s.pool.sessions[id].workspace == w;
    assert SessionOk(s, id);
    SessionLeaves(s, e, id);
    AttemptsStay(s, e);
    MadeStaysOk(s, e);
    hide Step, InCreation, Discipline, SessionsApart, CreatorsApart;
    var m := Step(s, e);
    if Handle(id, w) in m.hands {
      assert InHand(m, w);
    } else if id in m.pool.sessions && m.pool.sessions[id].workspace == w {
      assert Tracked(m, w);
    } else if w !in m.attempted && Compares(s, e).Some? {
      DroppedSafely(s, e, id);
      if InHand(s, w) { HandStays(s, e, w); }
    }
  }

  lemma {:induction false} StaysAccountedFor(s: System, e: Event, w: nat)
    requires Inv(s) && AccountedFor(s, w) && !DropsLive(s, e) && !Orphans(s, e)
    ensures AccountedFor(Step(s, e), w)
  {
    MadeStaysOk(s, e);
    AttemptsStay(s, e);
    if w in s.made {
      if Tracked(s, w) {
        TrackedStays(s, e, w);
      } else if InCreation(s, w) {
        CreationStays(s, e, w);
      } else if InHand(s, w) {
        HandStays(s, e, w);
      }
    } else if e.MakeUpstream? && w in Step(s, e).made {
      Holds(Step(s, e), e.t);
    }
  }

  lemma {:induction false} DroppedIsGone(s: System, e: Event, id: nat)
    requires Inv(s) && Exposed(s, id) && Compares(s, e).Some? && Compares(s, e).value != s.live
    ensures !AccountedFor(Step(s, e), s.pool.sessions[id].workspace)
  {
    var w, m := s.pool.sessions[id].workspace, Step(s, e);
    assert SessionOk(s, id);
    MadeStaysOk(s, e);
    if InCreation(m, w) { CreationIsNew(s, e, w); }
    if Tracked(m, w) {
      var j :| j in m.pool.sessions && m.pool.sessions[j].workspace == w;
      SessionComesFrom(s, e, j);
      DropsOther(s, e, id);
    }
    if InHand(m, w) { NewHands(s, e, id); }
  }

  lemma {:induction false} DropsOther(s: System, e: Event, id: nat)
    requires Inv(s) && Exposed(s, id) && Compares(s, e).Some? && Compares(s, e).value != s.live
    ensures id !in Step(s, e).pool.sessions && !e.PublishSession? && Step(s, e).live == s.live
    ensures Step(s, e).attempted == s.attempted
  {
  }

  lemma {:induction false} NewHands(s: System, e: Event, id: nat)
    requires SessionsApart(s) && Exposed(s, id) && Compares(s, e).Some? && Compares(s, e).value != s.live
    ensures !InHand(Step(s, e), s.pool.sessions[id].workspace)
  {
    hide Step;
    forall h | h in Step(s, e).hands
      ensures h.workspace != s.pool.sessions[id].workspace
    {
      HandsComeFrom(s, e, h);
    }
  }

  /** Nobody knows of a workspace that was not made. */
  lemma {:induction false} FreshIsUnknown(s: System, w: nat)
    requires Inv(s) && w !in s.made
    ensures !Tracked(s, w) && !InCreation(s, w) && !InHand(s, w) && w !in s.attempted
  {
    forall t | t in s.creators && Held(s.creators[t])
      ensures s.creators[t].workspace != w
    {
      assert CreatorOk(s, t);
    }
    forall id | id in s.pool.sessions
      ensures s.pool.sessions[id].workspace != w
    {
      assert SessionOk(s, id);
    }
  }

  lemma {:induction false} OrphanIsGone(s: System, e: Event)
    requires Inv(s) && Orphans(s, e)
    ensures !AccountedFor(Step(s, e), e.workspace)
  {
    var w, m := e.workspace, Step(s, e);
    assert m.pool == s.pool && m.hands == s.hands && m.attempted == s.attempted && m.made[w] == m.live;
    FreshIsUnknown(s, w);
    if InCreation(m, w) { CreationIsNew(s, e, w); }
    hide Step, Inv;
  }

  /**
    A workspace is lost exactly when a step drops a live session by an endpoint
    the Gateway has since outlived, or a creation never hears of what it made.
   */
  lemma {:induction false} LostExactly(s: System, e: Event)
    requires Inv(s) && NothingLost(s)
    ensures NothingLost(Step(s, e)) <==> !DropsLive(s, e) && !Orphans(s, e)
  {
    hide Inv, AccountedFor, Step, Exposed, Compares;
    if DropsLive(s, e) {
      var id :| id in s.pool.sessions && Exposed(s, id);
      DroppedIsGone(s, e, id);
    } else if Orphans(s, e) {
      OrphanIsGone(s, e);
    } else {
      forall w: nat
        ensures AccountedFor(Step(s, e), w)
      {
        assert AccountedFor(s, w);
        StaysAccountedFor(s, e, w);
      }
    }
  }

  /** Every drop acts on the generation that is still serving, and every creation hears of what it made. */
  ghost predicate Undisturbed(s: System, events: seq<Event>)
    decreases |events|
  {
    events != [] ==>
      (Compares(s, events[0]).Some? ==> Compares(s, events[0]).value == s.live)
      && !Orphans(s, events[0]) && Undisturbed(Step(s, events[0]), events[1..])
  }

  /** Under these two conditions no interleaving loses a workspace. */
  lemma {:induction false} NothingIsLost(s: System, events: seq<Event>)
    requires Inv(s) && NothingLost(s) && Undisturbed(s, events)
    ensures NothingLost(Play(s, events))
    decreases |events|
  {
    hide Inv, NothingLost, Step, Compares, Orphans;
    if events != [] {
      InvStays(s, events[0]);
      LostExactly(s, events[0]);
      NothingIsLost(Step(s, events[0]), events[1..]);
    }
  }

  /** Two creations around a restart: the first read the endpoint before it, the second publishes after it. */
  function RaceStep(k: nat): Event {
    match k
    case 0 => Enter(1)
    case 1 => ReachGateway(1)
    case 2 => Restart
    case 3 => Enter(2)
    case 4 => ReachGateway(2)
    case 5 => DropStale(2)
    case 6 => CheckCapacity(2)
    case 7 => MakeUpstream(2, 7)
    case 8 => PublishSession(2, 9, 1800)
    case _ => DropStale(1)
  }

  function RaceCreators(k: nat): map<nat, Phase> {
    match k
    case 0 => map[]
    case 1 => map[1 := Entered]
    case 2 | 3 => map[1 := Reached(0)]
    case 4 => map[1 := Reached(0), 2 := Entered]
    case 5 => map[1 := Reached(0), 2 := Reached(1)]
    case 6 => map[1 := Reached(0), 2 := Cleared(1)]
    case 7 => map[1 := Reached(0), 2 := Admitted(1)]
    case 8 => map[1 := Reached(0), 2 := Holding(1, 7)]
    case 9 => map[1 := Reached(0), 2 := Leaving]
    case _ => map[1 := Cleared(0), 2 := Leaving]
  }

  /** The service before the k-th of those steps. */
  function RaceAt(k: nat): System {
    var sessions := if k == 9 then map[9 := Session(1, 7, 1800, false)] else map[];
    var inflight := if k == 0 then 0 else if k <= 3 then 1 else 2;
    System(Pool(sessions, false, inflight, k > 0), if k <= 2 then 0 else 1, if k <= 7 then map[] else map[7 := 1], {},
           RaceCreators(k), map[], map[], multiset{}, if k <= 8 then {} else {9})
  }

  function RaceFrom(k: nat): seq<Event>
    decreases 10 - k
  {
    if k >= 10 then [] else [RaceStep(k)] + RaceFrom(k + 1)
  }

  lemma {:induction false} RaceBegins(k: nat)
    requires k < 5
    ensures Step(RaceAt(k), RaceStep(k)) == RaceAt(k + 1)
  {
    hide Dropped, Finished, Marked, TakenOn, AllHandles;
    assert Step(RaceAt(k), RaceStep(k)).creators == RaceCreators(k + 1);
  }

  lemma {:induction false} RaceGoesOn(k: nat)
    requires 5 <= k < 8
    ensures Step(RaceAt(k), RaceStep(k)) == RaceAt(k + 1)
  {
    hide UpkeepStep, Begun, Finished;
    assert Step(RaceAt(k), RaceStep(k)).creators == RaceCreators(k + 1);
  }

  lemma {:induction false} RacePublishes()
    ensures Step(RaceAt(8), RaceStep(8)) == RaceAt(9)
  {
    hide UpkeepStep, Begun, Finished, Dropped;
    var s := RaceAt(8);
    assert RaceStep(8) == PublishSession(2, 9, 1800) && s.creators == map[1 := Reached(0), 2 := Holding(1, 7)];
    assert RaceAt(9).creators == map[1 := Reached(0), 2 := Leaving];
    hide RaceStep, RaceCreators;
    assert s.creators[2 := Leaving] == RaceAt(9).creators;
    assert map[][9 := Session(1, 7, 1800, false)] == RaceAt(9).pool.sessions;
  }

  lemma {:induction false} RaceEnds()
    ensures Step(RaceAt(9), RaceStep(9)) == RaceAt(10)
  {
    hide UpkeepStep, Begun, Finished;
    assert Step(RaceAt(9), RaceStep(9)).creators == RaceCreators(10);
  }

  lemma {:induction false} RacePlays(k: nat)
    requires k <= 10
    ensures Play(RaceAt(k), RaceFrom(k)) == RaceAt(10)
    decreases 10 - k
  {
    hide Step, RaceAt, RaceStep;
    if k < 10 {
      if k < 5 {
        RaceBegins(k);
      } else if k < 8 {
        RaceGoesOn(k);
      } else if k == 8 {
        RacePublishes();
      } else {
        RaceEnds();
      }
      RacePlays(k + 1);
      assert RaceFrom(k)[1..] == RaceFrom(k + 1);
    }
  }

  lemma {:induction false} RaceForgets()
    ensures Tracked(RaceAt(9), 7) && !AccountedFor(RaceAt(10), 7)
  {
    hide Step;
    assert 9 in RaceAt(9).pool.sessions && RaceAt(9).pool.sessions[9].workspace == 7;
    var d := RaceAt(10);
    assert d.creators == map[1 := Cleared(0), 2 := Leaving];
    assert d.pool.sessions == map[] && d.hands == multiset{} && d.made == map[7 := 1] && d.live == 1;
    hide RaceAt, RaceCreators, RaceStep, RaceFrom, Play;
    assert !InCreation(d, 7);
  }

  /** The first creation forgets, unseen, the live workspace the second one has just published. */
  lemma {:induction false} LostWorkspaceExample()
    ensures Initial(RaceAt(0)) && Play(RaceAt(0), RaceFrom(0)) == RaceAt(10)
    ensures Tracked(RaceAt(9), 7) && !AccountedFor(RaceAt(10), 7)
  {
    RacePlays(0);
    RaceForgets();
    hide Play, RaceFrom, RaceStep, Tracked, AccountedFor;
  }

  /** One creation alone, up to its request to the Gateway. */
  function OrphanAt(k: nat): System {
    var creators: map<nat, Phase> :=
      match k
      case 0 => map[]
      case 1 => map[1 := Entered]
      case 2 => map[1 := Reached(0)]
      case 3 => map[1 := Cleared(0)]
      case 4 => map[1 := Admitted(0)]
      case _ => map[1 := Leaving];
    System(Pool(map[], false, if k == 0 then 0 else 1, k > 0), 0, if k <= 4 then map[] else map[7 := 0], {},
           creators, map[], map[], multiset{}, {})
  }

  function OrphanStep(k: nat): Event {
    match k
    case 0 => Enter(1)
    case 1 => ReachGateway(1)
    case 2 => DropStale(1)
    case 3 => CheckCapacity(1)
    case _ => LoseResponse(1, 7)
  }

  lemma {:induction false} OrphanSteps(k: nat)
    requires k < 5
    ensures Step(OrphanAt(k), OrphanStep(k)) == OrphanAt(k + 1)
  {
    hide UpkeepStep, Finished;
    assert Step(OrphanAt(k), OrphanStep(k)).creators == OrphanAt(k + 1).creators;
  }

  /** The response to a creation is lost: its workspace is alive, and nobody tracks or deletes it. */
  lemma {:induction false} LostResponseExample()
    ensures Initial(OrphanAt(0))
    ensures Play(OrphanAt(0), [OrphanStep(0), OrphanStep(1), OrphanStep(2), OrphanStep(3), OrphanStep(4)])
            == OrphanAt(5)
    ensures !AccountedFor(OrphanAt(5), 7)
  {
    var events := [OrphanStep(0), OrphanStep(1), OrphanStep(2), OrphanStep(3), OrphanStep(4)];
    for k := 0 to 5
      invariant Play(OrphanAt(0), events) == Play(OrphanAt(k), events[k..])
    {
      OrphanSteps(k);
      hide Step, OrphanAt, OrphanStep;
      assert events[k..][0] == OrphanStep(k) && events[k..][1..] == events[k + 1..];
    }
    hide Play, Step;
    assert OrphanAt(5).creators == map[1 := Leaving] && !InCreation(OrphanAt(5), 7);
  }

  // ----- closing -----

  /** Once closed, the pool only shrinks and no creation begins. */
  lemma {:induction false} ClosedOnlyShrinks(s: System, events: seq<Event>)
    requires s.pool.closed
    ensures Play(s, events).pool.closed && Play(s, events).pool.sessions.Keys <= s.pool.sessions.Keys
    ensures Play(s, events).creators.Keys <= s.creators.Keys
    decreases |events|
  {
    if events != [] {
      ClosedStep(s, events[0]);
      hide Step;
      ClosedOnlyShrinks(Step(s, events[0]), events[1..]);
    }
  }

  lemma {:induction false} ClosedStep(s: System, e: Event)
    requires s.pool.closed
    ensures Step(s, e).pool.closed && Step(s, e).pool.sessions.Keys <= s.pool.sessions.Keys
    ensures Step(s, e).creators.Keys <= s.creators.Keys
  {
    if OfCreation(e) {
      hide UpkeepStep, Begun, Finished;
    } else {
      hide CreationStep, TakenOn, AllHandles;
    }
  }

  lemma {:induction false} PlaySplits(s: System, a: seq<Event>, b: seq<Event>)
    ensures Play(s, a + b) == Play(Play(s, a), b)
    decreases |a|
  {
    hide Step;
    if a == [] {
      assert a + b == b;
    } else {
      assert (a + b)[1..] == a[1..] + b;
      PlaySplits(Step(s, a[0]), a[1..], b);
    }
  }

  /** A drained Close leaves no session behind, for good; one that saw createsDone leaves no creation either. */
  lemma {:induction false} CloseDrainsForGood(s: System, waited: bool, events: seq<Event>)
    requires Inv(s) && s.pool.closed && (waited ==> !s.pool.createsOpen)
    ensures Play(Step(s, Drain(waited)), events).pool.sessions == map[]
    ensures waited ==> Play(Step(s, Drain(waited)), events).creators == map[]
  {
    var m := Step(s, Drain(waited));
    assert m.pool.sessions == map[] && (waited ==> m.creators == map[]);
    ClosedOnlyShrinks(m, events);
    hide Play, Step;
    var n := Play(m, events);
    assert n.pool.sessions.Keys == {} && (waited ==> n.creators.Keys == {});
  }

  /**
    A whole life of the service, closed and drained, undisturbed in the two ways
    above: when the creations and deletions in flight are through, every workspace
    ever made had a deletion attempted or died with its generation.
   */
  lemma {:induction false} NothingIsLeftBehind(
    s: System, before: seq<Event>, waited: bool, later: seq<Event>, m: System, w: nat)
    requires Initial(s) && Undisturbed(s, before + [Drain(waited)] + later)
    requires Play(s, before).pool.closed && (waited ==> !Play(s, before).pool.createsOpen)
    requires m == Play(s, before + [Drain(waited)] + later)
    requires m.hands == multiset{} && (!waited ==> m.creators == map[])
    ensures m.pool.sessions == map[] && m.creators == map[]
    ensures w in m.made ==> w in m.attempted || m.made[w] < m.live
  {
    InitiallySound(s);
    PoolStaysSound(s, before);
    NothingIsLost(s, before + [Drain(waited)] + later);
    PlaySplits(s, before + [Drain(waited)], later);
    PlaySplits(s, before, [Drain(waited)]);
    var closed := Play(s, before);
    assert [Drain(waited)][1..] == [];
    assert Play(closed, [Drain(waited)]) == Step(closed, Drain(waited));
    CloseDrainsForGood(closed, waited, later);
    hide Play, Step, Inv, Undisturbed, Initial;
    assert AccountedFor(m, w);
  }
}
