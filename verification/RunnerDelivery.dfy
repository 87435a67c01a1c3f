/**
  At-least-once delivery by the runner daemon: numbered events stay pending until
  an acknowledgement names them exactly, and are resent in order after every
  reconnect (cmd/runnerd/main.go).
 */
module RunnerDelivery {
  import opened Wrappers
  import Ordering

  datatype Key = Key(run: string, lease: string, number: nat)

  datatype Pending = Pending(fencing: int, eventId: string, kind: string, terminal: bool)

  datatype Lease = Lease(id: string, fencing: int)

  datatype Runner = Runner(
    id: string, slots: int, epoch: string,
    runs: set<string>, leases: map<string, Lease>, seqs: map<string, nat>,
    pending: map<Key, Pending>, terminalPending: set<string>)

  // ----- offers -----

  datatype Offer = Offer(
    runnerId: string, envRun: string, run: string, adapter: string, agent: string, lease: Lease)

  /** What the checkout registry answers about an offer. */
  datatype Checkout = Checkout(snapshotOk: bool, resolves: bool, acquires: bool)

  datatype Reply = Accept | Reject(reason: string)

  predicate OfferWellFormed(o: Offer) {
    && o.runnerId != "" && o.run != "" && o.run == o.envRun
    && o.adapter != "" && o.agent != "" && o.lease.id != "" && o.lease.fencing >= 1
  }

  function OfferReply(r: Runner, o: Offer, c: Checkout): Reply {
    if !OfferWellFormed(o) then Reject("workspace")
    else if |r.runs| >= r.slots then Reject("capacity")
    else if !c.snapshotOk || !c.resolves || !c.acquires then Reject("workspace")
    else Accept
  }

  function Offered(r: Runner, o: Offer, c: Checkout): Runner {
    if OfferReply(r, o, c) == Accept then
      r.(runs := r.runs + {o.run}, leases := r.leases[o.run := o.lease])
    else r
  }

  // ----- events -----

  function SeqOf(r: Runner, run: string): nat {
    if run in r.seqs then r.seqs[run] else 0
  }

  /** The identity the next event of a Run gets. */
  function NextKey(r: Runner, run: string): Key
    requires run in r.leases
  {
    Key(run, r.leases[run].id, SeqOf(r, run) + 1)
  }

  predicate IsTerminalEvent(r: Runner, run: string, kind: string, terminal: bool) {
    kind == "run.status_changed" && terminal && run in r.runs
  }

  function Emitted(r: Runner, run: string, kind: string, terminal: bool, eventId: string): Runner
    requires run in r.leases
  {
    var key := NextKey(r, run);
    r.(seqs := r.seqs[run := key.number],
       pending := r.pending[key := Pending(r.leases[run].fencing, eventId, kind, terminal)],
       terminalPending := if IsTerminalEvent(r, run, kind, terminal) then r.terminalPending + {run}
         else r.terminalPending)
  }

  function Finalized(r: Runner, run: string): Runner {
    r.(runs := r.runs - {run})
  }

  // ----- acknowledgements -----

  datatype Ack = Ack(envRunner: string, envRun: string, run: string, lease: string, number: nat,
                     runner: string, fencing: int, eventId: string)

  function AckKey(a: Ack): Key {
    Key(a.run, a.lease, a.number)
  }

  predicate AckMatches(r: Runner, a: Ack) {
    && AckKey(a) in r.pending
    && a.envRunner == r.id && a.envRun == a.run && a.runner == r.id
    && a.fencing == r.pending[AckKey(a)].fencing && a.eventId == r.pending[AckKey(a)].eventId
  }

  predicate HasPending(pending: map<Key, Pending>, run: string) {
    exists k :: k in pending && k.run == run
  }

  function CleanedUp(r: Runner, run: string): Runner {
    if run !in r.terminalPending || HasPending(r.pending, run) then r
    else r.(leases := r.leases - {run}, seqs := r.seqs - {run}, terminalPending := r.terminalPending - {run})
  }

  function Acked(r: Runner, a: Ack): Runner {
    if AckMatches(r, a) then CleanedUp(r.(pending := r.pending - {AckKey(a)}), a.run) else r
  }

  // ----- commands -----

  datatype Command = Command(run: string, runner: string, epoch: string, lease: string, fencing: int)

  predicate CommandCurrent(r: Runner, c: Command) {
    && c.run in r.runs && c.run in r.leases
    && c.runner == r.id && c.epoch == r.epoch
    && c.lease == r.leases[c.run].id && c.fencing == r.leases[c.run].fencing
  }

  // ----- resending -----

  predicate Before(a: Key, b: Key) {
    Ordering.Less(a.run, b.run) || (a.run == b.run && a.number < b.number)
  }

  function InsertKey(k: Key, keys: seq<Key>): seq<Key> {
    if keys == [] || !Before(keys[0], k) then [k] + keys else [keys[0]] + InsertKey(k, keys[1..])
  }

  function SortKeys(keys: seq<Key>): seq<Key> {
    if keys == [] then [] else InsertKey(keys[0], SortKeys(keys[1..]))
  }

  predicate InOrder(keys: seq<Key>) {
    forall i, j | 0 <= i < j < |keys| :: !Before(keys[j], keys[i])
  }

  predicate Distinct(keys: seq<Key>) {
    forall i, j | 0 <= i < j < |keys| :: keys[i] != keys[j]
  }

  lemma {:induction false} BeforeTransitive(a: Key, b: Key, c: Key)
    requires !Before(b, a) && !Before(c, b)
    ensures !Before(c, a)
  {
    Ordering.Total(a.run, b.run);
    Ordering.Total(b.run, c.run);
    Ordering.Total(a.run, c.run);
    if Ordering.Less(c.run, a.run) {
      if a.run == b.run || b.run == c.run {
      } else {
        Ordering.Transitive(a.run, b.run, c.run);
        Ordering.Transitive(a.run, c.run, a.run);
        Ordering.Irreflexive(a.run);
      }
    } else if a.run == c.run && a.run != b.run {
      Ordering.Transitive(a.run, b.run, a.run);
      Ordering.Irreflexive(a.run);
    } else {
      Ordering.Irreflexive(a.run);
    }
  }

  lemma {:induction false} NotBeforeBoth(a: Key, b: Key)
    ensures !(Before(a, b) && Before(b, a))
  {
    if Before(a, b) && Before(b, a) {
      if Ordering.Less(a.run, b.run) && Ordering.Less(b.run, a.run) { Ordering.Transitive(a.run, b.run, a.run); }
      Ordering.Irreflexive(a.run);
    }
  }

  lemma {:induction false} InsertOrders(k: Key, keys: seq<Key>)
    requires InOrder(keys)
    ensures InOrder(InsertKey(k, keys)) && multiset(InsertKey(k, keys)) == multiset(keys) + multiset{k}
  {
    if keys == [] {
    } else if !Before(keys[0], k) {
      var r := [k] + keys;
      forall i, j | 0 <= i < j < |r|
        ensures !Before(r[j], r[i])
      {
        if i == 0 && j > 1 { BeforeTransitive(k, keys[0], keys[j - 1]); }
      }
    } else {
      InsertOrders(k, keys[1..]);
      var rest := InsertKey(k, keys[1..]);
      assert keys == [keys[0]] + keys[1..];
      var r := [keys[0]] + rest;
      forall i, j | 0 <= i < j < |r|
        ensures !Before(r[j], r[i])
      {
        if i == 0 {
          assert rest[j - 1] in multiset(rest);
          NotBeforeBoth(keys[0], k);
        }
      }
    }
  }

  lemma {:induction false} HeadAndTail(keys: seq<Key>)
    requires keys != []
    ensures multiset(keys) == multiset(keys[1..]) + multiset{keys[0]}
  {
    assert keys == [keys[0]] + keys[1..];
  }

  lemma {:induction false} SortUnfolds(keys: seq<Key>)
    requires keys != []
    ensures SortKeys(keys) == InsertKey(keys[0], SortKeys(keys[1..]))
  {
  }

  /** Sorting keeps the keys and puts them in resend order. */
  lemma {:induction false} SortOrders(keys: seq<Key>)
    ensures InOrder(SortKeys(keys)) && multiset(SortKeys(keys)) == multiset(keys)
  {
    if keys == [] {
    } else {
      SortUnfolds(keys);
      hide Before, InsertKey, InOrder, SortKeys;
      SortOrders(keys[1..]);
      InsertOrders(keys[0], SortKeys(keys[1..]));
      HeadAndTail(keys);
    }
  }

  // ----- the daemon -----

  class Daemon {
    const id: string
    const slots: int
    var epoch: string
    var runs: set<string>
    var leases: map<string, Lease>
    var seqs: map<string, nat>
    var pending: map<Key, Pending>
    var terminalPending: set<string>

    constructor (id: string, slots: int, epoch: string)
      ensures State() == Runner(id, slots, epoch, {}, map[], map[], map[], {})
    {
      this.id, this.slots, this.epoch := id, slots, epoch;
      runs, leases, seqs, pending, terminalPending := {}, map[], map[], map[], {};
    }

    ghost function State(): Runner
      reads this
    {
      Runner(id, slots, epoch, runs, leases, seqs, pending, terminalPending)
    }

    method HandleOffer(o: Offer, c: Checkout) returns (reply: Reply)
      modifies this`runs, this`leases
      ensures reply == OfferReply(old(State()), o, c)
      ensures State() == Offered(old(State()), o, c)
    {
      if o.runnerId == "" || o.run == "" || o.run != o.envRun || o.adapter == "" || o.agent == "" ||
         o.lease.id == "" || o.lease.fencing < 1 {
        return Reject("workspace");
      }
      var active := |runs|;
      if active >= slots {
        return Reject("capacity");
      }
      if !c.snapshotOk {
        return Reject("workspace");
      }
      if !c.resolves {
        return Reject("workspace");
      }
      if !c.acquires {
        return Reject("workspace");
      }
      runs := runs + {o.run};
      leases := leases[o.run := o.lease];
      return Accept;
    }

    /** Numbers an event and keeps it pending; an event without framing is refused. */
    method EmitEvent(run: string, kind: string, terminal: bool, eventId: string) returns (key: Option<Key>)
      modifies this`seqs, this`pending, this`terminalPending
      ensures run !in old(leases) ==> key.None? && State() == old(State())
      ensures run in old(leases) ==>
                && key == Some(NextKey(old(State()), run))
                && State() == Emitted(old(State()), run, kind, terminal, eventId)
    {
      if run !in leases {
        return None;
      }
      var number := (if run in seqs then seqs[run] else 0) + 1;
      seqs := seqs[run := number];
      key := Some(Key(run, leases[run].id, number));
      pending := pending[key.value := Pending(leases[run].fencing, eventId, kind, terminal)];
      var active := run in runs;
      if kind == "run.status_changed" && active && terminal {
        terminalPending := terminalPending + {run};
      }
    }

    method Finalize(run: string)
      modifies this`runs
      ensures State() == Finalized(old(State()), run)
    {
      runs := runs - {run};
    }

    method HandleAck(a: Ack)
      modifies this`pending, this`leases, this`seqs, this`terminalPending
      ensures State() == Acked(old(State()), a)
    {
      var key := Key(a.run, a.lease, a.number);
      if key !in pending {
        return;
      }
      var p := pending[key];
      if a.envRunner != id || a.envRun != a.run || a.runner != id || a.fencing != p.fencing || a.eventId != p.eventId {
        return;
      }
      pending := pending - {key};
      CleanupTerminalState(a.run);
    }

    method CleanupTerminalState(run: string)
      modifies this`leases, this`seqs, this`terminalPending
      ensures State() == CleanedUp(old(State()), run)
    {
      if run !in terminalPending {
        return;
      }
      var keys := pending.Keys;
      while keys != {}
        invariant keys <= pending.Keys
        invariant forall k | k in pending.Keys - keys :: k.run != run
        decreases |keys|
      {
        var key :| key in keys;
        if key.run == run {
          return;
        }
        keys := keys - {key};
      }
      leases := leases - {run};
      seqs := seqs - {run};
      terminalPending := terminalPending - {run};
    }

    /** A new connection gets a new epoch before anything is resent. */
    method Reconnect(epoch: string)
      modifies this`epoch
      ensures State() == old(State()).(epoch := epoch)
    {
      this.epoch := epoch;
    }

    method PendingKeys() returns (keys: seq<Key>)
      ensures Distinct(keys) && |keys| == |pending.Keys|
      ensures forall k :: k in keys <==> k in pending
    {
      keys := [];
      var left := pending.Keys;
      while left != {}
        invariant left <= pending.Keys
        invariant forall k :: k in keys <==> k in pending.Keys && k !in left
        invariant Distinct(keys) && |keys| + |left| == |pending.Keys|
        decreases |left|
      {
        var key :| key in left;
        assert key !in keys;
        keys := keys + [key];
        left := left - {key};
      }
    }

    /**
      Writes every pending event in order until one write fails; `accepts` is how
      many writes the connection takes.
     */
    method ResendPending(accepts: nat) returns (sent: seq<Key>, completed: bool)
      ensures InOrder(sent) && Distinct(sent)
      ensures forall k | k in sent :: k in pending
      ensures completed <==> |pending.Keys| <= accepts
      ensures completed ==> forall k | k in pending :: k in sent
      ensures !completed ==> |sent| == accepts
    {
      var keys := PendingKeys();
      var events := SortKeys(keys);
      SortOrders(keys);
      SortedDistinct(keys, events);
      sent, completed := [], true;
      for i := 0 to |events|
        invariant sent == events[..i] && completed && i <= accepts
      {
        if i == accepts {
          completed := false;
          break;
        }
        sent := sent + [events[i]];
      }
      assert completed ==> sent == events;
      assert forall k | k in sent :: k in events;
    }
  }

  lemma {:induction false} SortedDistinct(keys: seq<Key>, events: seq<Key>)
    requires multiset(events) == multiset(keys)
    requires Distinct(keys)
    ensures |events| == |keys| && (forall k :: k in events <==> k in keys)
    ensures Distinct(events)
  {
    assert |multiset(events)| == |multiset(keys)|;
    forall k
      ensures k in events <==> k in keys
    {
      assert k in events <==> k in multiset(events);
      assert k in keys <==> k in multiset(keys);
    }
    forall i, j | 0 <= i < j < |events|
      ensures events[i] != events[j]
    {
      if events[i] == events[j] {
        CountTwice(events, i, j);
        CountOnce(keys, events[i]);
      }
    }
  }

  lemma {:induction false} CountTwice(xs: seq<Key>, i: nat, j: nat)
    requires i < j < |xs| && xs[i] == xs[j]
    ensures multiset(xs)[xs[i]] >= 2
  {
    assert xs == xs[..j] + [xs[j]] + xs[j + 1..];
    assert xs[i] in xs[..j];
  }

  lemma {:induction false} CountOnce(xs: seq<Key>, k: Key)
    requires Distinct(xs)
    ensures multiset(xs)[k] <= 1
  {
    if xs != [] {
      assert xs == [xs[0]] + xs[1..];
      CountOnce(xs[1..], k);
      if xs[0] == k { assert k !in xs[1..]; }
    }
  }

  // ----- the runner and the network -----

  /**
    The runner, and what an observer of the whole system would know: every event
    ever emitted, those acknowledged, those the receiver has recorded, the events
    of each Run in number order since its numbering last started, and the ids
    already used for leases, events and connections. emitEvent finalizes only after
    its write: finalizing holds one entry for each terminal event still on its way
    there. Of each Run's last registration, ended says that it emitted a terminal
    event, and inherited that an earlier terminal marker stood when it was made.
   */
  datatype System = System(
    runner: Runner, emitted: map<Key, Pending>, acked: set<Key>, recorded: set<Key>,
    numbering: map<string, seq<Key>>, finalizing: multiset<string>,
    ended: set<string>, inherited: set<string>,
    usedLeases: set<string>, usedEpochs: set<string>)

  datatype Event =
    | OfferIn(o: Offer, c: Checkout)
    | Emit(run: string, kind: string, terminal: bool, eventId: string)
    | Finalize(run: string)
    | Deliver(key: Key)
    | AckIn(a: Ack)
    | Connect(epoch: string)

  function Numbered(s: System, run: string): seq<Key> {
    if run in s.numbering then s.numbering[run] else []
  }

  /** An accepted offer registers the Run and gives it its framing. */
  predicate Registers(s: System, e: Event, run: string) {
    e.OfferIn? && e.o.run == run && OfferReply(s.runner, e.o, e.c) == Accept
  }

  /** A terminal event of an active Run sets its marker. */
  predicate EndsRun(s: System, e: Event, run: string) {
    e.Emit? && e.run == run && run in s.runner.leases && IsTerminalEvent(s.runner, run, e.kind, e.terminal)
  }

  ghost predicate Next(s: System, e: Event, s': System) {
    match e
    case OfferIn(o, c) =>
      // lease ids are never used twice
      && o.lease.id !in s.usedLeases
      && s' == s.(runner := Offered(s.runner, o, c), usedLeases := s.usedLeases + {o.lease.id},
                  ended := if Registers(s, e, o.run) then s.ended - {o.run} else s.ended,
                  inherited := if !Registers(s, e, o.run) then s.inherited
                               else if o.run in s.runner.terminalPending then s.inherited + {o.run}
                               else s.inherited - {o.run})
    case Emit(run, kind, terminal, eventId) =>
      && (forall k | k in s.emitted :: s.emitted[k].eventId != eventId)
      && if run !in s.runner.leases then s' == s
         else
           var key := NextKey(s.runner, run);
           s' == s.(runner := Emitted(s.runner, run, kind, terminal, eventId),
                    emitted := s.emitted[key := Emitted(s.runner, run, kind, terminal, eventId).pending[key]],
                    numbering := s.numbering[run := Numbered(s, run) + [key]],
                    finalizing := if EndsRun(s, e, run) then s.finalizing + multiset{run} else s.finalizing,
                    ended := if EndsRun(s, e, run) then s.ended + {run} else s.ended)
    case Finalize(run) =>
      && run in s.finalizing
      && s' == s.(runner := Finalized(s.runner, run), finalizing := s.finalizing - multiset{run},
          ended := s.ended - {run})
    case Deliver(key) =>
      // the network may deliver any event that was ever written, any number of times
      key in s.emitted && s' == s.(recorded := s.recorded + {key})
    case AckIn(a) =>
      // only the receiver of an event knows its id; everything else may be stale or forged
      && (forall k | k in s.emitted && s.emitted[k].eventId == a.eventId :: k in s.recorded)
      && s' == s.(runner := Acked(s.runner, a),
                  acked := if AckMatches(s.runner, a) then s.acked + {AckKey(a)} else s.acked,
                  numbering := if a.run in Acked(s.runner, a).seqs then s.numbering else s.numbering - {a.run})
    case Connect(epoch) =>
      && epoch !in s.usedEpochs
      && s' == s.(runner := s.runner.(epoch := epoch), usedEpochs := s.usedEpochs + {epoch})
  }

  ghost predicate Initial(s: System) {
    && s.runner == Runner(s.runner.id, s.runner.slots, s.runner.epoch, {}, map[], map[], map[], {})
    && s == System(s.runner, map[], {}, {}, map[], multiset{}, {}, {}, {}, {s.runner.epoch})
  }

  /** The numbers 1..n of a Run belong to distinct events, each pending or acknowledged and not both. */
  ghost predicate RunSplit(s: System, run: string) {
    && |Numbered(s, run)| == SeqOf(s.runner, run)
    && forall i | 0 <= i < |Numbered(s, run)| ::
         && Numbered(s, run)[i].run == run && Numbered(s, run)[i].number == i + 1
         && Numbered(s, run)[i] in s.emitted
         && (Numbered(s, run)[i] in s.runner.pending <==> Numbered(s, run)[i] !in s.acked)
  }

  /** Numbering and bookkeeping of the pending set. */
  ghost predicate PendingOk(s: System) {
    (forall run :: RunSplit(s, run)) && BooksOk(s)
  }

  ghost predicate BooksOk(s: System) {
    && (forall run :: run in s.numbering <==> run in s.runner.seqs)
    && (forall k | k in s.runner.pending ::
          k in s.emitted && s.runner.pending[k] == s.emitted[k] && k in Numbered(s, k.run))
    && (forall k | k in s.emitted :: k in s.runner.pending || k in s.acked)
    && (forall k | k in s.acked :: k in s.recorded && k in s.emitted)
  }

  /** Identities are never used twice. */
  ghost predicate IdsOk(s: System) {
    && (forall k | k in s.emitted :: k.lease in s.usedLeases)
    && (forall run | run in s.runner.leases :: s.runner.leases[run].id in s.usedLeases)
    && (forall k | k in s.emitted && k.run in s.runner.leases && k.lease == s.runner.leases[k.run].id ::
          k.number <= SeqOf(s.runner, k.run))
    && (forall k, m | k in s.emitted && m in s.emitted && k != m :: s.emitted[k].eventId != s.emitted[m].eventId)
    && s.runner.epoch in s.usedEpochs
  }

  ghost predicate Inv(s: System) {
    && |s.runner.runs| <= (if s.runner.slots > 0 then s.runner.slots else 0)
    && PendingOk(s) && IdsOk(s)
  }

  lemma {:induction false} InitialInv(s: System)
    requires Initial(s)
    ensures Inv(s)
  {
  }

  lemma {:induction false} OfferKeepsIds(s: System, o: Offer, c: Checkout, s': System)
    requires IdsOk(s) && Next(s, OfferIn(o, c), s')
    ensures IdsOk(s')
  {
  }

  lemma {:induction false} OfferKeepsSlots(s: System, o: Offer, c: Checkout)
    requires |s.runner.runs| <= (if s.runner.slots > 0 then s.runner.slots else 0)
    ensures |Offered(s.runner, o, c).runs| <= (if s.runner.slots > 0 then s.runner.slots else 0)
  {
  }

  lemma {:induction false} OfferKeeps(s: System, o: Offer, c: Checkout, s': System)
    requires Inv(s) && Next(s, OfferIn(o, c), s')
    ensures Inv(s')
  {
    OfferKeepsIds(s, o, c, s');
    OfferKeepsSlots(s, o, c);
    hide IdsOk;
    forall run
      ensures RunSplit(s', run)
    {
      assert RunSplit(s, run);
    }
  }

  /** The next event of a Run has an identity of its own. */
  lemma {:induction false} NextKeyIsFresh(s: System, run: string)
    requires IdsOk(s) && run in s.runner.leases
    ensures NextKey(s.runner, run) !in s.emitted
  {
  }

  lemma {:induction false} EmitSplits(s: System, e: Event, s': System, run: string)
    requires PendingOk(s) && e.Emit? && Next(s, e, s') && e.run in s.runner.leases
    requires NextKey(s.runner, e.run) !in s.emitted
    ensures RunSplit(s', run)
  {
    assert RunSplit(s, run);
  }

  lemma {:induction false} EmitKeepsBooks(s: System, e: Event, s': System)
    requires PendingOk(s) && e.Emit? && Next(s, e, s') && e.run in s.runner.leases
    requires NextKey(s.runner, e.run) !in s.emitted
    ensures BooksOk(s')
  {
    hide RunSplit;
    forall k | k in s'.runner.pending
      ensures k in s'.emitted && s'.runner.pending[k] == s'.emitted[k] && k in Numbered(s', k.run)
    {
      if k != NextKey(s.runner, e.run) { assert k in Numbered(s, k.run); }
    }
  }

  lemma {:induction false} EmitKeepsIds(s: System, e: Event, s': System)
    requires IdsOk(s) && e.Emit? && Next(s, e, s') && e.run in s.runner.leases
    ensures IdsOk(s')
  {
    forall k | k in s'.emitted && k.run in s'.runner.leases && k.lease == s'.runner.leases[k.run].id
      ensures k.number <= SeqOf(s'.runner, k.run)
    {
      if k in s.emitted { assert k.number <= SeqOf(s.runner, k.run); }
    }
  }

  lemma {:induction false} EmitKeeps(s: System, e: Event, s': System)
    requires Inv(s) && e.Emit? && Next(s, e, s') && e.run in s.runner.leases
    ensures Inv(s')
  {
    hide RunSplit, BooksOk, IdsOk;
    NextKeyIsFresh(s, e.run);
    EmitKeepsBooks(s, e, s');
    EmitKeepsIds(s, e, s');
    forall run
      ensures RunSplit(s', run)
    {
      EmitSplits(s, e, s', run);
    }
  }

  /** The key of a matching acknowledgement was recorded by the receiver. */
  lemma {:induction false} AckedWasRecorded(s: System, a: Ack, s': System)
    requires BooksOk(s) && Next(s, AckIn(a), s') && AckMatches(s.runner, a)
    ensures AckKey(a) in s.recorded && AckKey(a) in s.emitted
    ensures s'.runner.pending == s.runner.pending - {AckKey(a)} && s'.acked == s.acked + {AckKey(a)}
    ensures s'.emitted == s.emitted && s'.recorded == s.recorded && s'.usedLeases == s.usedLeases
    ensures s'.runner.runs == s.runner.runs && s'.runner.epoch == s.runner.epoch && s'.usedEpochs == s.usedEpochs
    ensures s'.runner.slots == s.runner.slots
  {
    assert s.emitted[AckKey(a)].eventId == a.eventId;
  }

  /** An acknowledgement leaves every Run's numbering alone, or ends its own. */
  lemma {:induction false} AckNumbering(s: System, a: Ack, s': System)
    requires BooksOk(s) && Next(s, AckIn(a), s') && AckMatches(s.runner, a)
    ensures || (s'.runner.seqs == s.runner.seqs && s'.numbering == s.numbering && s'.runner.leases == s.runner.leases)
            || (&& s'.runner.seqs == s.runner.seqs - {a.run} && s'.numbering == s.numbering - {a.run}
                && s'.runner.leases == s.runner.leases - {a.run}
                && forall k | k in s'.runner.pending :: k.run != a.run)
  {
    assert AckKey(a) in Numbered(s, a.run);
    if a.run !in s'.runner.seqs {
      forall k | k in s'.runner.pending
        ensures k.run != a.run
      {
        assert !HasPending(s'.runner.pending, a.run);
      }
    }
  }

  lemma {:induction false} AckSplits(s: System, a: Ack, s': System, run: string)
    requires PendingOk(s) && Next(s, AckIn(a), s') && AckMatches(s.runner, a)
    ensures RunSplit(s', run)
  {
    hide BooksOk, Next;
    AckedWasRecorded(s, a, s');
    AckNumbering(s, a, s');
    assert RunSplit(s, run);
  }

  lemma {:induction false} AckKeepsBooks(s: System, a: Ack, s': System)
    requires PendingOk(s) && Next(s, AckIn(a), s') && AckMatches(s.runner, a)
    ensures BooksOk(s')
  {
    hide RunSplit, Next;
    AckedWasRecorded(s, a, s');
    AckNumbering(s, a, s');
  }

  lemma {:induction false} AckKeepsIds(s: System, a: Ack, s': System)
    requires IdsOk(s) && BooksOk(s) && Next(s, AckIn(a), s') && AckMatches(s.runner, a)
    ensures IdsOk(s')
  {
    AckedWasRecorded(s, a, s');
    AckNumbering(s, a, s');
    hide Next, BooksOk;
  }

  lemma {:induction false} AckKeeps(s: System, a: Ack, s': System)
    requires Inv(s) && Next(s, AckIn(a), s')
    ensures Inv(s')
  {
    if AckMatches(s.runner, a) {
      hide BooksOk, RunSplit, IdsOk, Next;
      AckedWasRecorded(s, a, s');
      AckKeepsBooks(s, a, s');
      AckKeepsIds(s, a, s');
      forall run
        ensures RunSplit(s', run)
      {
        AckSplits(s, a, s', run);
      }
    } else {
      assert s'.numbering == s.numbering;
      assert s' == s;
    }
  }

  lemma {:induction false} StepKeepsInv(s: System, e: Event, s': System)
    requires Inv(s) && Next(s, e, s')
    ensures Inv(s')
  {
    match e
    case OfferIn(o, c) => OfferKeeps(s, o, c, s');
    case Emit(run, _, _, _) => if run in s.runner.leases { EmitKeeps(s, e, s'); }
    case AckIn(a) => AckKeeps(s, a, s');
    case Finalize(_) => QuietKeeps(s, s');
    case Deliver(_) => QuietKeeps(s, s');
    case Connect(_) => QuietKeeps(s, s');
  }

  lemma {:induction false} QuietKeeps(s: System, s': System)
    requires Inv(s)
    requires s'.runner == s.runner.(runs := s'.runner.runs, epoch := s'.runner.epoch)
    requires s'.runner.runs <= s.runner.runs && s'.runner.epoch in s'.usedEpochs
    requires s.recorded <= s'.recorded
    requires s' == s.(runner := s'.runner, recorded := s'.recorded, usedEpochs := s'.usedEpochs,
                      finalizing := s'.finalizing, ended := s'.ended)
    ensures Inv(s')
  {
    Smaller(s'.runner.runs, s.runner.runs);
    forall run
      ensures RunSplit(s', run)
    {
      assert RunSplit(s, run);
    }
  }

  lemma {:induction false} Smaller(a: set<string>, b: set<string>)
    requires a <= b
    ensures |a| <= |b|
  {
    assert b == a + (b - a);
  }

  ghost predicate Behavior(states: seq<System>, events: seq<Event>) {
    && |states| == |events| + 1 && Initial(states[0])
    && forall i | 0 <= i < |events| :: Next(states[i], events[i], states[i + 1])
  }

  /**
    In every reachable state the numbers 1..seqs of a Run are split between
    pending and acknowledged, no event is ever lost, only recorded events are
    acknowledged, and the active Runs fit the slots.
   */
  lemma {:induction false} DeliveryInvariant(states: seq<System>, events: seq<Event>)
    requires Behavior(states, events)
    ensures Inv(states[|events|])
  {
    hide Next, Inv, Initial;
    var n := |events|;
    if n == 0 {
      InitialInv(states[0]);
    } else {
      DeliveryInvariant(states[..n], events[..n - 1]);
      StepKeepsInv(states[n - 1], events[n - 1], states[n]);
    }
  }

  /**
    What one completed resend achieves: once its frames have been delivered, the
    receiver holds every event the runner ever emitted.
   */
  lemma {:induction false} ResendRestoresEverything(s: System, sent: seq<Key>)
    requires Inv(s) && forall k | k in s.runner.pending :: k in sent
    ensures forall k | k in s.emitted :: k in s.recorded || k in sent
  {
  }

  /** A resend is ascending within each Run, so a receiver sees a Run's events in the order it produced them. */
  lemma {:induction false} ResendAscends(s: System, sent: seq<Key>, i: nat, j: nat)
    requires Inv(s) && InOrder(sent) && Distinct(sent) && (forall k | k in sent :: k in s.runner.pending)
    requires i < j < |sent| && sent[i].run == sent[j].run
    ensures sent[i].number < sent[j].number
  {
    var run := sent[i].run;
    assert sent[i] in s.runner.pending && sent[j] in s.runner.pending;
    assert RunSplit(s, run);
    var a :| 0 <= a < |Numbered(s, run)| && Numbered(s, run)[a] == sent[i];
    var b :| 0 <= b < |Numbered(s, run)| && Numbered(s, run)[b] == sent[j];
    assert !Before(sent[j], sent[i]);
  }

  /** An event leaves the pending set only by an acknowledgement naming it completely. */
  lemma {:induction false} OnlyExactAcksRelease(s: System, e: Event, s': System, k: Key)
    requires Inv(s) && Next(s, e, s') && k in s.runner.pending && k !in s'.runner.pending
    ensures e.AckIn? && AckKey(e.a) == k && e.a.runner == s.runner.id
    ensures e.a.fencing == s.runner.pending[k].fencing && e.a.eventId == s.runner.pending[k].eventId
    ensures k in s.recorded
  {
    assert s.emitted[k] == s.runner.pending[k];
  }

  /** Numbering and framing of a Run are dropped only after its terminal event, with nothing left to acknowledge. */
  lemma {:induction false} FramingOutlivesPending(s: System, e: Event, s': System, run: string)
    requires Inv(s) && Next(s, e, s') && run in s.runner.leases && run !in s'.runner.leases
    ensures e.AckIn? && e.a.run == run && run in s.runner.terminalPending
    ensures forall k | k in s'.runner.pending :: k.run != run
    ensures forall k | k in s.emitted && k.run == run :: k in s'.recorded
  {
    assert !HasPending(s'.runner.pending, run);
    forall k | k in s.emitted && k.run == run
      ensures k in s'.recorded
    {
      if k in s.runner.pending { assert k == AckKey(e.a); }
    }
  }

  // ----- why an active Run can lose its framing -----

  /** Its terminal event is emitted but not yet finalized. */
  predicate Unfinalized(s: System, run: string) {
    run in s.ended && run in s.finalizing
  }

  /** It was offered again while the marker of an earlier terminal event stood, and has emitted none since. */
  predicate ReofferedUnderMarker(s: System, run: string) {
    run in s.inherited && run !in s.ended
  }

  ghost predicate MarkersOk(s: System) {
    && (forall run :: run in s.runner.runs && run in s.ended ==> run in s.finalizing)
    && (forall run :: run in s.runner.runs && run in s.runner.leases ==>
          (run in s.runner.terminalPending <==> run in s.ended || run in s.inherited))
  }

  lemma {:induction false} StepKeepsMarkers(s: System, e: Event, s': System)
    requires MarkersOk(s) && Next(s, e, s')
    ensures MarkersOk(s')
  {
    hide RunSplit, BooksOk, IdsOk;
  }

  lemma {:induction false} MarkersStayOk(states: seq<System>, events: seq<Event>)
    requires Behavior(states, events)
    ensures MarkersOk(states[|events|])
  {
    hide Next, MarkersOk, Initial;
    var n := |events|;
    if n == 0 {
      NoMarkers(states[0]);
    } else {
      MarkersStayOk(states[..n], events[..n - 1]);
      StepKeepsMarkers(states[n - 1], events[n - 1], states[n]);
    }
  }

  lemma {:induction false} NoMarkers(s: System)
    requires Initial(s)
    ensures MarkersOk(s)
  {
  }

  /** The marker of an active Run has exactly one of two causes. */
  lemma {:induction false} MarkerHasOneCause(states: seq<System>, events: seq<Event>, run: string)
    requires Behavior(states, events)
    requires run in states[|events|].runner.runs && run in states[|events|].runner.leases
    ensures run in states[|events|].runner.terminalPending <==>
            Unfinalized(states[|events|], run) || ReofferedUnderMarker(states[|events|], run)
    ensures !(Unfinalized(states[|events|], run) && ReofferedUnderMarker(states[|events|], run))
  {
    hide Next, Initial;
    MarkersStayOk(states, events);
  }

  /** What the record of a registration says about the history of an active Run. */
  lemma {:induction false} RegistrationHistory(states: seq<System>, events: seq<Event>, run: string) returns (i: nat)
    requires Behavior(states, events) && run in states[|events|].runner.runs
    ensures i < |events| && Registers(states[i], events[i], run)
    ensures forall j | i < j < |events| :: !Registers(states[j], events[j], run)
    ensures run in states[|events|].inherited <==> run in states[i].runner.terminalPending
    ensures run in states[|events|].ended <==> exists j | i < j < |events| :: EndsRun(states[j], events[j], run)
  {
    var n := |events|;
    NothingRegistered(states[0], run);
    var s, e, s' := states[n - 1], events[n - 1], states[n];
    RecordMoves(s, e, s', run);
    hide Next, Initial, Registers, EndsRun;
    if Registers(s, e, run) {
      i := n - 1;
    } else {
      i := RegistrationHistory(states[..n], events[..n - 1], run);
      forall j | i < j < n
        ensures EndsRun(states[j], events[j], run) ==> run in s'.ended
      {
        if j < n - 1 {
          assert EndsRun(states[..n][j], events[..n - 1][j], run) <==> EndsRun(states[j], events[j], run);
        }
      }
      if run in s.ended {
        var j :| i < j < n - 1 && EndsRun(states[..n][j], events[..n - 1][j], run);
        assert EndsRun(states[j], events[j], run);
      }
    }
  }

  lemma {:induction false} NothingRegistered(s: System, run: string)
    ensures Initial(s) ==> run !in s.runner.runs
  {
  }

  lemma {:induction false} RecordMoves(s: System, e: Event, s': System, run: string)
    requires Next(s, e, s') && run in s'.runner.runs
    ensures !Registers(s, e, run) ==> run in s.runner.runs
    ensures run in s'.ended <==> !Registers(s, e, run) && (run in s.ended || EndsRun(s, e, run))
    ensures run in s'.inherited <==> if Registers(s, e, run) then run in s.runner.terminalPending
              else run in s.inherited
  {
    hide RunSplit, BooksOk, IdsOk;
  }

  predicate LastPending(r: Runner, a: Ack) {
    AckMatches(r, a) && forall k | k in r.pending && k.run == a.run :: k == AckKey(a)
  }

  /**
    An active Run can lose its framing: exactly when its last pending event is
    acknowledged before its terminal event is finalized, or after it was offered
    again while the marker of an earlier terminal event stood.
   */
  lemma {:induction false} ActiveRunLosesFraming(states: seq<System>, events: seq<Event>, i: nat, run: string)
    requires Behavior(states, events) && i < |events|
    requires run in states[i].runner.runs && run in states[i].runner.leases
    ensures run in states[i + 1].runner.runs && run !in states[i + 1].runner.leases <==>
            && events[i].AckIn? && events[i].a.run == run && LastPending(states[i].runner, events[i].a)
            && (Unfinalized(states[i], run) || ReofferedUnderMarker(states[i], run))
  {
    hide Initial, MarkersOk;
    assert Behavior(states[..i + 1], events[..i]);
    MarkerHasOneCause(states[..i + 1], events[..i], run);
    LosesFraming(states[i], events[i], states[i + 1], run);
  }

  lemma {:induction false} LosesFraming(s: System, e: Event, s': System, run: string)
    requires Next(s, e, s') && run in s.runner.runs && run in s.runner.leases
    ensures run in s'.runner.runs && run !in s'.runner.leases <==>
            e.AckIn? && e.a.run == run && LastPending(s.runner, e.a) && run in s.runner.terminalPending
  {
    if e.AckIn? && AckMatches(s.runner, e.a) && e.a.run == run {
      var rest := s.runner.pending - {AckKey(e.a)};
      if HasPending(rest, run) {
        var k :| k in rest && k.run == run;
        assert k in s.runner.pending && k != AckKey(e.a);
      }
    }
  }

  const EXAMPLE_LEASES := [Lease("lease_0", 1), Lease("lease_1", 2)]

  function ExampleOffer(k: nat): Event
    requires k < 2
  {
    OfferIn(Offer("runner", "run", "run", "a", "g", EXAMPLE_LEASES[k]), Checkout(true, true, true))
  }

  function ExampleAck(): Event {
    AckIn(Ack("runner", "run", "run", "lease_0", 1, "runner", 1, "revt_0"))
  }

  const EXAMPLE_KEY := Key("run", "lease_0", 1)

  const EXAMPLE_FRAME := Pending(1, "revt_0", "run.status_changed", true)

  /** The example's runner, with one slot. */
  function ExampleRunner(runs: set<string>, leases: map<string, Lease>, emitted: bool, pending: bool): Runner {
    Runner("runner", 1, "epoch", runs, leases, if emitted then map["run" := 1] else map[],
           if pending then map[EXAMPLE_KEY := EXAMPLE_FRAME] else map[], if emitted then {"run"} else {})
  }

  function ExampleStart(): System {
    System(ExampleRunner({}, map[], false, false), map[], {}, {}, map[], multiset{}, {}, {}, {}, {"epoch"})
  }

  /** The state after one offer and the Run's terminal event. */
  function ExampleEnded(finalized: bool, delivered: bool): System {
    var runner := ExampleRunner(if finalized then {} else {"run"}, map["run" := EXAMPLE_LEASES[0]], true, true);
    System(runner, map[EXAMPLE_KEY := EXAMPLE_FRAME], {}, if delivered then {EXAMPLE_KEY} else {},
           map["run" := [EXAMPLE_KEY]], if finalized then multiset{} else multiset{"run"},
           if finalized then {} else {"run"}, {}, {"lease_0"}, {"epoch"})
  }

  lemma {:induction false} ExampleEnds() returns (registered: System)
    ensures Initial(ExampleStart()) && Next(ExampleStart(), ExampleOffer(0), registered)
    ensures Next(registered, Emit("run", "run.status_changed", true, "revt_0"), ExampleEnded(false, false))
  {
    registered := ExampleStart().(runner := ExampleRunner({"run"}, map["run" := EXAMPLE_LEASES[0]], false, false),
                                  usedLeases := {"lease_0"});
    var e := Emit("run", "run.status_changed", true, "revt_0");
    var r := Emitted(registered.runner, "run", "run.status_changed", true, "revt_0");
    assert NextKey(registered.runner, "run") == EXAMPLE_KEY && EndsRun(registered, e, "run");
    assert r.seqs == map["run" := 1] && r.pending == map[EXAMPLE_KEY := EXAMPLE_FRAME] && r.terminalPending == {"run"};
    assert r == ExampleEnded(false, false).runner;
    assert registered.emitted[EXAMPLE_KEY := EXAMPLE_FRAME] == map[EXAMPLE_KEY := EXAMPLE_FRAME];
    assert Numbered(registered, "run") + [EXAMPLE_KEY] == [EXAMPLE_KEY];
    assert registered.numbering["run" := Numbered(registered, "run") + [EXAMPLE_KEY]] == map["run" := [EXAMPLE_KEY]];
    assert registered.finalizing + multiset{"run"} == multiset{"run"};
  }

  /** The state once the marked Run's only event has been acknowledged. */
  function ExampleStripped(s: System): System {
    s.(runner := ExampleRunner({"run"}, map[], false, false), acked := {EXAMPLE_KEY}, numbering := map[])
  }

  lemma {:induction false} ExampleAcknowledged(s: System)
    requires s.runner == ExampleRunner({"run"}, s.runner.leases, true, true)
    requires s.runner.leases == map["run" := EXAMPLE_LEASES[0]] || s.runner.leases == map["run" := EXAMPLE_LEASES[1]]
    requires s.emitted == map[EXAMPLE_KEY := EXAMPLE_FRAME] && s.recorded == {EXAMPLE_KEY} && s.acked == {}
    requires s.numbering == map["run" := [EXAMPLE_KEY]]
    ensures Next(s, ExampleAck(), ExampleStripped(s))
  {
    var a := ExampleAck().a;
    assert AckMatches(s.runner, a) && AckKey(a) == EXAMPLE_KEY;
    assert s.runner.pending - {EXAMPLE_KEY} == map[];
    assert !HasPending(map[], "run");
    assert s.runner.leases - {"run"} == map[] && s.runner.seqs - {"run"} == map[];
    assert s.runner.terminalPending - {"run"} == {};
    assert Acked(s.runner, a) == ExampleRunner({"run"}, map[], false, false);
    assert s.numbering - {"run"} == map[] && s.acked + {EXAMPLE_KEY} == {EXAMPLE_KEY};
  }

  lemma {:induction false} ExampleDelivered(s: System)
    requires s.emitted == map[EXAMPLE_KEY := EXAMPLE_FRAME] && s.recorded == {}
    ensures Next(s, Deliver(EXAMPLE_KEY), s.(recorded := {EXAMPLE_KEY}))
  {
    assert s.recorded + {EXAMPLE_KEY} == {EXAMPLE_KEY};
  }

  /** The acknowledgement overtakes the finalization: one offer only, and the active Run has lost its framing. */
  lemma {:induction false} UnfinalizedRunExample() returns (states: seq<System>, events: seq<Event>)
    ensures Behavior(states, events) && |events| == 4 && forall i | 1 <= i < 4 :: !events[i].OfferIn?
    ensures "run" in states[4].runner.runs && "run" !in states[4].runner.leases
    ensures Unfinalized(states[3], "run")
  {
    hide Next, Initial;
    var registered := ExampleEnds();
    var ended, delivered := ExampleEnded(false, false), ExampleEnded(false, true);
    ExampleDelivered(ended);
    ExampleAcknowledged(delivered);
    states := [ExampleStart(), registered, ended, delivered, ExampleStripped(delivered)];
    events := [ExampleOffer(0), Emit("run", "run.status_changed", true, "revt_0"), Deliver(EXAMPLE_KEY), ExampleAck()];
  }

  lemma {:induction false} ExampleFinalized()
    ensures Next(ExampleEnded(false, false), Finalize("run"), ExampleEnded(true, false))
  {
    var s := ExampleEnded(false, false);
    assert Finalized(s.runner, "run") == ExampleEnded(true, false).runner;
    assert s.finalizing - multiset{"run"} == multiset{} && s.ended - {"run"} == {};
  }

  /** The Run once it has been offered again under the marker. */
  function ExampleAgain(): System {
    ExampleEnded(true, false).(
      runner := ExampleRunner({"run"}, map["run" := EXAMPLE_LEASES[1]], true, true),
      inherited := {"run"}, usedLeases := {"lease_0", "lease_1"})
  }

  /** The Run is finalized and offered again before its terminal event is acknowledged. */
  lemma {:induction false} ReofferedRunExample() returns (states: seq<System>, events: seq<Event>)
    ensures Behavior(states, events) && |events| == 6
    ensures "run" in states[6].runner.runs && "run" !in states[6].runner.leases
    ensures ReofferedUnderMarker(states[5], "run") && states[5].finalizing == multiset{}
  {
    hide Next, Initial;
    var registered := ExampleEnds();
    var again := ExampleAgain();
    var delivered := again.(recorded := {EXAMPLE_KEY});
    ExampleFinalized();
    ExampleReoffers(again);
    ExampleDelivered(again);
    ExampleAcknowledged(delivered);
    states := [ExampleStart(), registered, ExampleEnded(false, false), ExampleEnded(true, false), again, delivered,
               ExampleStripped(delivered)];
    events := [ExampleOffer(0), Emit("run", "run.status_changed", true, "revt_0"), Finalize("run"), ExampleOffer(1),
               Deliver(EXAMPLE_KEY), ExampleAck()];
  }

  lemma {:induction false} ExampleReoffers(again: System)
    requires again == ExampleAgain()
    ensures Next(ExampleEnded(true, false), ExampleOffer(1), again)
  {
    var s := ExampleEnded(true, false);
    assert "lease_0"[6] != "lease_1"[6];
    assert Offered(s.runner, ExampleOffer(1).o, ExampleOffer(1).c) == again.runner;
  }

  // ----- reconnecting -----

  lemma {:induction false} OldEpochRefused(s: System, epoch: string, s': System, c: Command)
    requires Next(s, Connect(epoch), s') && c.epoch in s.usedEpochs
    ensures !CommandCurrent(s'.runner, c) && c.epoch in s'.usedEpochs
  {
  }

  lemma {:induction false} EpochMoves(s: System, e: Event, s': System)
    requires Next(s, e, s')
    ensures s.usedEpochs <= s'.usedEpochs
    ensures s'.runner.epoch == s.runner.epoch || s'.runner.epoch !in s.usedEpochs
  {
    hide RunSplit, BooksOk, IdsOk;
  }

  /** After a reconnect no command of an earlier connection is obeyed again, whatever else happens. */
  lemma {:induction false} OldConnectionsAreFenced(states: seq<System>, events: seq<Event>, i: nat, j: nat, c: Command)
    requires Behavior(states, events) && i < j <= |events| && events[i].Connect? && c.epoch in states[i].usedEpochs
    ensures c.epoch in states[j].usedEpochs && states[j].runner.epoch != c.epoch
    ensures !CommandCurrent(states[j].runner, c)
  {
    assert Next(states[j - 1], events[j - 1], states[j]);
    if j == i + 1 {
      OldEpochRefused(states[i], events[i].epoch, states[j], c);
    } else {
      OldConnectionsAreFenced(states, events, i, j - 1, c);
      EpochMoves(states[j - 1], events[j - 1], states[j]);
    }
  }
}
