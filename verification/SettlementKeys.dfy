/**
  The settlement checkpoint of a cancelled Goal: its turn keys are collected,
  sorted, stored as JSON and read back by the recovery loop
  (internal/application/governance.go, canonical_usage_hook.go).
 */
module SettlementKeys {
  import opened Wrappers
  import Ordering
  import Text

  datatype TurnKey = TurnKey(goal: string, todo: string, number: int)

  datatype KeyError = InvalidKey | OtherGoal | Malformed

  const TWO_53 := 0x20_0000_0000_0000
  const TWO_63 := 0x8000_0000_0000_0000

  // ----- binary64 -----

  /** The spacing of binary64 numbers around n: a power of two with n < 2^53 units. */
  function Unit(n: nat): (u: nat)
    ensures u >= 1 && n < TWO_53 * u
  {
    if n < TWO_53 then 1 else 2 * Unit(n / 2)
  }

  /** The binary64 number a JSON integer is read as: the nearest one, ties to even. */
  function Rounded(n: nat): nat {
    var u := Unit(n);
    var q, r := n / u, n % u;
    if 2 * r < u || (2 * r == u && q % 2 == 0) then q * u else (q + 1) * u
  }

  function Pow2(e: nat): (p: nat)
    ensures p >= 1
  {
    if e == 0 then 1 else 2 * Pow2(e - 1)
  }

  predicate IsScaled(n: int, m: nat, e: nat) { m <= TWO_53 && n == m * Pow2(e) }

  /** n is a binary64 number: at most 53 significant bits. */
  ghost predicate IsBinary64(n: int) {
    exists m: nat, e: nat :: IsScaled(n, m, e)
  }

  // ----- stored values -----

  /** What a checkpoint field may hold: native values in memory, plain JSON after a reload. */
  datatype Value =
    | Str(s: string)
    | Native(i: int)
    | Float(x: real)
    | NotFinite
    | List(elements: seq<Value>)
    | Object(fields: map<string, Value>)
    | Keys(keys: seq<TurnKey>)
    | Other

  /** Converting a float that does not fit int64 gives the smallest int64 on amd64. */
  function ToInt64(x: real): int {
    if -(TWO_63 as real) <= x < TWO_63 as real then x.Floor else -TWO_63
  }

  /** governanceInt64 */
  function Integer(v: Value): Option<int> {
    match v
    case Native(i) => Some(i)
    case Float(x) => if x.Floor as real == x then Some(ToInt64(x)) else None
    case _ => None
  }

  /** Storing and reloading keeps texts and shapes, and turns every number into a binary64. */
  function Reloaded(v: Value): Value
    decreases v
  {
    match v
    case Native(i) => Float(if i >= 0 then Rounded(i) as real else -(Rounded(-i) as real))
    case List(elements) => List(seq(|elements|, k requires 0 <= k < |elements| => Reloaded(elements[k])))
    case Object(fields) => Object(map f | f in fields :: Reloaded(fields[f]))
    case _ => v
  }

  // ----- the codec -----

  predicate TypedId(id: string, prefix: string) {
    Text.Trimmed(id) && prefix < id
  }

  predicate ValidKey(k: TurnKey) {
    TypedId(k.goal, "goal_") && TypedId(k.todo, "todo_") && k.number >= 1
  }

  predicate Before(a: TurnKey, b: TurnKey) {
    if a.goal != b.goal then Ordering.Less(a.goal, b.goal)
    else if a.todo != b.todo then Ordering.Less(a.todo, b.todo)
    else a.number < b.number
  }

  predicate Sorted(keys: seq<TurnKey>) {
    forall i, j :: 0 <= i < j < |keys| ==> Before(keys[i], keys[j])
  }

  function Entry(k: TurnKey): Value {
    Object(map["goal_id" := Str(k.goal), "todo_id" := Str(k.todo), "turn_seq" := Native(k.number)])
  }

  /** encodeGoalSettlementTurnKeys */
  function Encode(keys: seq<TurnKey>): Value {
    List(seq(|keys|, k requires 0 <= k < |keys| => Entry(keys[k])))
  }

  function Field(fields: map<string, Value>, name: string): string {
    if name in fields && fields[name].Str? then fields[name].s else ""
  }

  function Accepted(k: TurnKey, goal: string): Result<TurnKey, KeyError> {
    if !ValidKey(k) then Failure(InvalidKey)
    else if goal != "" && k.goal != goal then Failure(OtherGoal)
    else Success(k)
  }

  function EntryKey(v: Value, goal: string): Result<TurnKey, KeyError> {
    if !v.Object? then Failure(Malformed)
    else
      var number := if "turn_seq" in v.fields then Integer(v.fields["turn_seq"]) else None;
      if Field(v.fields, "goal_id") == "" || Field(v.fields, "todo_id") == "" || number.None? then Failure(Malformed)
      else Accepted(TurnKey(Field(v.fields, "goal_id"), Field(v.fields, "todo_id"), number.value), goal)
  }

  /** The set of keys a checkpoint names, or the first entry that cannot be trusted. */
  function Named(elements: seq<Value>, goal: string): Result<set<TurnKey>, KeyError> {
    if elements == [] then Success({})
    else
      match Named(elements[..|elements| - 1], goal)
      case Failure(e) => Failure(e)
      case Success(seen) =>
        match EntryKey(elements[|elements| - 1], goal)
        case Failure(e) => Failure(e)
        case Success(k) => Success(seen + {k})
  }

  // ----- sorting -----

  lemma {:induction false} BeforeTransitive(a: TurnKey, b: TurnKey, c: TurnKey)
    requires Before(a, b) && Before(b, c)
    ensures Before(a, c)
  {
    if a.goal != b.goal && b.goal != c.goal { Ordering.Transitive(a.goal, b.goal, c.goal); }
    if a.goal != b.goal && a.goal == c.goal { Ordering.Irreflexive(a.goal); }
    if a.todo != b.todo && b.todo != c.todo && a.goal == b.goal && b.goal == c.goal {
      Ordering.Transitive(a.todo, b.todo, c.todo);
      if a.todo == c.todo { Ordering.Irreflexive(a.todo); }
    }
    if a.goal == c.goal && a.goal != b.goal {
      Ordering.Transitive(a.goal, b.goal, a.goal);
    }
  }

  lemma {:induction false} BeforeTotal(a: TurnKey, b: TurnKey)
    ensures Before(a, b) || a == b || Before(b, a)
  {
    Ordering.Total(a.goal, b.goal);
    Ordering.Total(a.todo, b.todo);
  }

  lemma {:induction false} NotBeforeItself(a: TurnKey, b: TurnKey)
    requires Before(a, b)
    ensures a != b && !Before(b, a)
  {
    if Before(b, a) { BeforeTransitive(a, b, a); }
  }

  /** There is only one sorted list of a set of keys. */
  lemma {:induction false} SortedUnique(a: seq<TurnKey>, b: seq<TurnKey>)
    requires Sorted(a) && Sorted(b) && forall k :: k in a <==> k in b
    ensures a == b
  {
    SomeMember(a);
    SomeMember(b);
    if a != [] && b != [] {
      HeadsAgree(a, b);
      forall k
        ensures k in a[1..] <==> k in b[1..]
      {
        TailHolds(a, k);
        TailHolds(b, k);
      }
      SortedUnique(a[1..], b[1..]);
      assert a == [a[0]] + a[1..] && b == [b[0]] + b[1..];
    }
  }

  lemma {:induction false} SomeMember(a: seq<TurnKey>)
    ensures a == [] || exists k :: k in a
  {
    if a != [] { assert a[0] in a; }
  }

  lemma {:induction false} HeadsAgree(a: seq<TurnKey>, b: seq<TurnKey>)
    requires Sorted(a) && Sorted(b) && a != [] && b != [] && forall k :: k in a <==> k in b
    ensures a[0] == b[0]
  {
    assert a[0] in b && b[0] in a;
    var i :| 0 <= i < |b| && b[i] == a[0];
    var j :| 0 <= j < |a| && a[j] == b[0];
    if i > 0 && j > 0 { NotBeforeItself(a[0], b[0]); }
  }

  lemma {:induction false} TailHolds(a: seq<TurnKey>, k: TurnKey)
    requires Sorted(a) && a != []
    ensures k in a[1..] <==> k in a && k != a[0]
  {
    if k in a[1..] {
      var i :| 0 <= i < |a[1..]| && a[1..][i] == k;
      assert Before(a[0], a[i + 1]);
      NotBeforeItself(a[0], k);
    }
  }

  /** sortedTurnKeys: the set is drained in any order and comes out sorted. */
  method SortedTurnKeys(seen: set<TurnKey>) returns (keys: seq<TurnKey>)
    ensures Sorted(keys) && forall k :: k in keys <==> k in seen
  {
    var left := seen;
    keys := [];
    while left != {}
      invariant left <= seen && Sorted(keys)
      invariant forall k :: k in keys <==> k in seen && k !in left
      decreases |left|
    {
      var k :| k in left;
      left := left - {k};
      keys := Inserted(keys, k);
    }
  }

  method Inserted(keys: seq<TurnKey>, k: TurnKey) returns (r: seq<TurnKey>)
    requires Sorted(keys) && k !in keys
    ensures Sorted(r) && forall x :: x in r <==> x == k || x in keys
  {
    var i := |keys|;
    while i > 0 && Before(k, keys[i - 1])
      invariant 0 <= i <= |keys|
      invariant forall j :: i <= j < |keys| ==> Before(k, keys[j])
    {
      i := i - 1;
    }
    if i > 0 {
      BeforeTotal(k, keys[i - 1]);
      forall j | 0 <= j < i
        ensures Before(keys[j], k)
      {
        if j < i - 1 { BeforeTransitive(keys[j], keys[i - 1], k); }
      }
    }
    r := keys[..i] + [k] + keys[i..];
  }

  /** goalSettlementTurnKeys: the current turn and every turn that still holds a reservation. */
  method GoalSettlementTurnKeys(goal: string, current: Option<TurnKey>, reserved: seq<TurnKey>)
    returns (r: Result<seq<TurnKey>, KeyError>)
    ensures r.Success? ==> Sorted(r.value) && forall k :: k in r.value <==> k in reserved || current == Some(k)
    ensures r.Success? ==> forall k :: k in r.value ==> ValidKey(k) && k.goal == goal
    ensures r.Success? <==>
              !Text.AllSpace(goal) && Owns(goal, reserved) && (current.Some? ==> Owns(goal, [current.value]))
  {
    Text.BlankTrims(goal);
    if Text.TrimSpace(goal) == "" { return Failure(Malformed); }
    hide Text.TrimSpace, Text.AllSpace, Text.Trimmed;
    var seen: set<TurnKey> := {};
    if current.Some? {
      var first := Accepted(current.value, goal);
      if first.Failure? {
        assert !Owns(goal, [current.value]) by { assert [current.value][0] == current.value; }
        return Failure(first.error);
      }
      seen := {current.value};
    }
    var i := 0;
    while i < |reserved|
      invariant 0 <= i <= |reserved|
      invariant forall k :: k in seen <==> k in reserved[..i] || current == Some(k)
      invariant Owns(goal, reserved[..i])
      invariant forall k :: k in seen ==> ValidKey(k) && k.goal == goal
    {
      var next := Accepted(reserved[i], goal);
      if next.Failure? {
        assert !Owns(goal, reserved);
        return Failure(next.error);
      }
      assert reserved[..i + 1] == reserved[..i] + [reserved[i]];
      seen := seen + {reserved[i]};
      i := i + 1;
    }
    assert reserved[..i] == reserved;
    var keys := SortedTurnKeys(seen);
    return Success(keys);
  }

  predicate Owns(goal: string, keys: seq<TurnKey>) {
    forall i :: 0 <= i < |keys| ==> ValidKey(keys[i]) && keys[i].goal == goal
  }

  /** The keys a checkpoint field holds, in its JSON shape or its in-memory one. */
  function Held(raw: Option<Value>, goal: string): Result<set<TurnKey>, KeyError> {
    match raw
    case None => Success({})
    case Some(List(elements)) => Named(elements, goal)
    case Some(Keys(keys)) => if OwnsOrAny(goal, keys) then Success(set k | k in keys)
      else Failure(FirstRefusal(keys, goal))
    case Some(_) => Failure(Malformed)
  }

  predicate OwnsOrAny(goal: string, keys: seq<TurnKey>) {
    forall i :: 0 <= i < |keys| ==> Accepted(keys[i], goal).Success?
  }

  function FirstRefusal(keys: seq<TurnKey>, goal: string): KeyError {
    if keys == [] then Malformed
    else if Accepted(keys[0], goal).Failure? then Accepted(keys[0], goal).error
    else FirstRefusal(keys[1..], goal)
  }

  /** The caller's key is taken in first and the checkpoint read on top of it. */
  function Decoded(raw: Option<Value>, goal: string, fallback: Option<TurnKey>): Result<set<TurnKey>, KeyError> {
    if fallback.Some? && Accepted(fallback.value, goal).Failure? then Failure(Accepted(fallback.value, goal).error)
    else
      match Held(raw, goal)
      case Failure(e) => Failure(e)
      case Success(keys) => Success(keys + (if fallback.Some? then {fallback.value} else {}))
  }

  method NamedKeys(elements: seq<Value>, goal: string) returns (r: Result<set<TurnKey>, KeyError>)
    ensures r == Named(elements, goal)
  {
    var seen: set<TurnKey> := {};
    var i := 0;
    while i < |elements|
      invariant 0 <= i <= |elements|
      invariant Named(elements[..i], goal) == Success(seen)
    {
      assert elements[..i + 1][..i] == elements[..i];
      var k := EntryKey(elements[i], goal);
      if k.Failure? {
        FirstFailureStays(elements, i + 1, goal);
        return Failure(k.error);
      }
      seen := seen + {k.value};
      i := i + 1;
    }
    assert elements[..i] == elements;
    return Success(seen);
  }

  method TypedKeys(keys: seq<TurnKey>, goal: string) returns (r: Result<set<TurnKey>, KeyError>)
    ensures r == Held(Some(Keys(keys)), goal)
  {
    var seen: set<TurnKey> := {};
    var i := 0;
    while i < |keys|
      invariant 0 <= i <= |keys|
      invariant OwnsOrAny(goal, keys[..i]) && seen == set k | k in keys[..i]
      invariant FirstRefusal(keys, goal) == FirstRefusal(keys[i..], goal)
    {
      var k := Accepted(keys[i], goal);
      if k.Failure? {
        assert !OwnsOrAny(goal, keys);
        return Failure(k.error);
      }
      assert keys[..i + 1] == keys[..i] + [keys[i]];
      assert keys[i..][1..] == keys[i + 1..];
      seen := seen + {keys[i]};
      i := i + 1;
    }
    assert keys[..i] == keys;
    return Success(seen);
  }

  /** decodeGoalSettlementTurnKeys */
  method Decode(raw: Option<Value>, goal: string, fallback: Option<TurnKey>) returns (r: Result<seq<TurnKey>, KeyError>)
    ensures Decoded(raw, goal, fallback).Failure? ==> r == Failure(Decoded(raw, goal, fallback).error)
    ensures Decoded(raw, goal, fallback).Success? ==>
              && r.Success? && Sorted(r.value)
              && forall k :: k in r.value <==> k in Decoded(raw, goal, fallback).value
  {
    var seen: set<TurnKey> := {};
    if fallback.Some? {
      var first := Accepted(fallback.value, goal);
      if first.Failure? { return Failure(first.error); }
      seen := {fallback.value};
    }
    hide Named, Accepted, OwnsOrAny, FirstRefusal;
    var held: Result<set<TurnKey>, KeyError> := Success({});
    match raw {
      case None =>
      case Some(List(elements)) => held := NamedKeys(elements, goal);
      case Some(Keys(keys)) => held := TypedKeys(keys, goal);
      case Some(_) => held := Failure(Malformed);
    }
    if held.Failure? { return Failure(held.error); }
    var sorted := SortedTurnKeys(seen + held.value);
    return Success(sorted);
  }

  lemma {:induction false} FirstFailureStays(elements: seq<Value>, n: nat, goal: string)
    requires n <= |elements| && Named(elements[..n], goal).Failure?
    ensures Named(elements, goal) == Named(elements[..n], goal)
    decreases |elements|
  {
    if n == |elements| {
      assert elements[..n] == elements;
    } else {
      var shorter := elements[..|elements| - 1];
      assert shorter[..n] == elements[..n];
      FirstFailureStays(shorter, n, goal);
    }
  }

  // ----- which sequence numbers survive a reload -----

  lemma {:induction false} UnitDivides(n: nat, m: nat, e: nat)
    requires m < TWO_53 && n == m * Pow2(e)
    ensures n % Unit(n) == 0
    decreases e
  {
    if e == 0 {
      assert n == m;
    } else if n >= TWO_53 {
      assert n == 2 * (m * Pow2(e - 1));
      UnitDivides(n / 2, m, e - 1);
      DoubleDivides(n / 2, Unit(n / 2));
    }
  }

  lemma {:induction false} DoubleDivides(n: nat, u: nat)
    requires u >= 1 && n % u == 0
    ensures (2 * n) % (2 * u) == 0
  {
    var q := n / u;
    assert 2 * n == q * (2 * u);
    MultipleDivides(q, 2 * u);
  }

  lemma {:induction false} AtLeastOnce(q: int, u: nat)
    ensures q >= 1 ==> q * u >= u
    ensures q <= -1 ==> q * u + u <= 0
  {
  }

  lemma {:induction false} MultipleDivides(q: nat, u: nat)
    requires u >= 1
    ensures (q * u) % u == 0 && (q * u) / u == q
  {
    var n := q * u;
    var d, r := n / u, n % u;
    assert n == d * u + r;
    assert (q - d) * u == r;
    AtLeastOnce(q - d, u);
  }

  lemma {:induction false} UnitIsPower(n: nat) returns (e: nat)
    ensures Unit(n) == Pow2(e)
  {
    if n < TWO_53 {
      e := 0;
    } else {
      var f := UnitIsPower(n / 2);
      e := f + 1;
    }
  }

  lemma {:induction false} BelowMeansSmaller(q: nat, u: nat, n: nat)
    requires u >= 1 && q == n / u && n < TWO_53 * u
    ensures q < TWO_53
  {
    assert q * u <= n;
    AtLeastOnce(q - TWO_53 + 1, u);
    assert (q - TWO_53 + 1) * u == q * u - TWO_53 * u + u;
  }

  /** Reading a number gives a binary64 number. */
  lemma {:induction false} RoundedIsBinary64(n: nat)
    ensures IsBinary64(Rounded(n))
  {
    var u, q := Unit(n), n / Unit(n);
    BelowMeansSmaller(q, u, n);
    var e := UnitIsPower(n);
    if Rounded(n) == q * u {
      assert IsScaled(Rounded(n), q, e);
    } else {
      assert IsScaled(Rounded(n), q + 1, e);
    }
  }

  /** And a binary64 number reads as itself. */
  lemma {:induction false} Binary64IsKept(n: nat)
    requires IsBinary64(n)
    ensures Rounded(n) == n
  {
    var m: nat, e: nat :| IsScaled(n, m, e);
    if m == TWO_53 {
      assert n == (TWO_53 / 2) * Pow2(e + 1);
      UnitDivides(n, TWO_53 / 2, e + 1);
    } else {
      UnitDivides(n, m, e);
    }
  }

  lemma {:induction false} SmallIsBinary64(n: nat)
    requires n <= TWO_53
    ensures IsBinary64(n)
  {
    assert IsScaled(n, n, 0);
  }

  predicate Storable(keys: seq<TurnKey>, goal: string) {
    Sorted(keys) && Owns(goal, keys) && forall i :: 0 <= i < |keys| ==> keys[i].number < TWO_63
  }

  /** What one entry reads back as. */
  function Recalled(k: TurnKey, goal: string): Result<TurnKey, KeyError>
    requires k.number >= 0
  {
    Accepted(k.(number := if Rounded(k.number) < TWO_63 then Rounded(k.number) else -TWO_63), goal)
  }

  lemma {:induction false} ReloadedField(fields: map<string, Value>, f: string)
    requires f in fields
    ensures Reloaded(Object(fields)).Object? && f in Reloaded(Object(fields)).fields
    ensures Reloaded(Object(fields)).fields[f] == Reloaded(fields[f])
  {
  }

  lemma {:induction false} EntryReadsBack(k: TurnKey, goal: string)
    requires ValidKey(k) && k.goal == goal
    ensures EntryKey(Reloaded(Entry(k)), goal) == Recalled(k, goal)
    ensures Recalled(k, goal) == Success(k) <==> IsBinary64(k.number) && k.number < TWO_63
    ensures IsBinary64(k.number) || Recalled(k, goal).Failure? || Recalled(k, goal).value.number != k.number
  {
    hide Rounded, Text.Trimmed;
    RoundedIsBinary64(k.number);
    if IsBinary64(k.number) { Binary64IsKept(k.number); }
    var names := ["goal_id", "todo_id", "turn_seq"];
    assert names[0][0] != names[1][0] && names[1][1] != names[2][1] && names[0][0] != names[2][0];
    var given := Entry(k).fields;
    assert given["turn_seq"] == Native(k.number) && given["goal_id"] == Str(k.goal) && given["todo_id"] == Str(k.todo);
    ReloadedField(given, "turn_seq");
    ReloadedField(given, "goal_id");
    ReloadedField(given, "todo_id");
  }

  function Checkpointed(keys: seq<TurnKey>): seq<Value> {
    seq(|keys|, k requires 0 <= k < |keys| => Reloaded(Entry(keys[k])))
  }

  lemma {:induction false} CheckpointIs(keys: seq<TurnKey>)
    ensures Reloaded(Encode(keys)) == List(Checkpointed(keys))
  {
    hide Entry;
    var v := Reloaded(Encode(keys));
    assert v.elements == Checkpointed(keys);
  }

  lemma {:induction false} CheckpointOfShorter(keys: seq<TurnKey>)
    requires keys != []
    ensures Checkpointed(keys)[..|keys| - 1] == Checkpointed(keys[..|keys| - 1])
  {
  }

  /** The key as its number reads back. */
  function AsRead(k: TurnKey): TurnKey
    requires k.number >= 0
  {
    k.(number := Rounded(k.number))
  }

  /**
    What must hold for a reload to lose or invent nothing: every saved number but
    the current turn's is a binary64 number, and the current turn is saved, also
    under the number it reads back as.
   */
  ghost predicate Recoverable(keys: seq<TurnKey>, current: Option<TurnKey>) {
    && (forall i :: 0 <= i < |keys| && current != Some(keys[i]) ==> IsBinary64(keys[i].number))
    && (current.Some? ==> current.value in keys && current.value.number >= 0 && AsRead(current.value) in keys)
  }

  ghost predicate ReadFrom(keys: seq<TurnKey>, goal: string, k: TurnKey)
    requires forall i :: 0 <= i < |keys| ==> keys[i].number >= 0
  {
    exists i :: 0 <= i < |keys| && Recalled(keys[i], goal) == Success(k)
  }

  /** A key is named exactly if it is what some saved key reads back as. */
  lemma {:induction false} NamedAsRead(keys: seq<TurnKey>, goal: string)
    requires Owns(goal, keys) && forall i :: 0 <= i < |keys| ==> keys[i].number < TWO_63
    ensures Named(Checkpointed(keys), goal).Success? <==>
            forall i :: 0 <= i < |keys| ==> Recalled(keys[i], goal).Success?
    ensures Named(Checkpointed(keys), goal).Success? ==>
              forall k :: k in Named(Checkpointed(keys), goal).value <==> ReadFrom(keys, goal, k)
  {
    hide Reloaded, Entry, EntryKey, ValidKey, IsBinary64, Rounded;
    if keys != [] {
      var n := |keys| - 1;
      NamedAsRead(keys[..n], goal);
      CheckpointOfShorter(keys);
      assert Owns(goal, keys) && ValidKey(keys[n]) && keys[n].goal == goal;
      EntryReadsBack(keys[n], goal);
      assert forall i :: 0 <= i < n ==> keys[..n][i] == keys[i];
    }
  }

  /** The keys of a Goal stay its keys, whatever their numbers read back as. */
  lemma {:induction false} RecalledMeans(k: TurnKey, goal: string)
    requires ValidKey(k) && k.goal == goal && k.number < TWO_63
    ensures Recalled(k, goal) == (if Rounded(k.number) < TWO_63 then Success(AsRead(k)) else Failure(InvalidKey))
    ensures IsBinary64(k.number) ==> AsRead(k) == k
    ensures !IsBinary64(k.number) ==> AsRead(k).number != k.number
    ensures IsBinary64(AsRead(k).number)
  {
    hide Text.Trimmed;
    RoundedIsBinary64(k.number);
    if IsBinary64(k.number) { Binary64IsKept(k.number); }
    RoundedPositive(k.number);
  }

  lemma {:induction false} RoundedPositive(n: nat)
    requires n >= 1
    ensures Rounded(n) >= 1
  {
    UnitBelow(n);
    QuotientPositive(n, Unit(n));
    AtLeastOnce(n / Unit(n), Unit(n));
    AtLeastOnce(n / Unit(n) + 1, Unit(n));
  }

  lemma {:induction false} QuotientPositive(n: nat, u: nat)
    requires 1 <= u <= n
    ensures n / u >= 1
  {
  }

  lemma {:induction false} UnitBelow(n: nat)
    requires n >= 1
    ensures Unit(n) <= n
  {
    if n >= TWO_53 { UnitBelow(n / 2); }
  }

  /**
    The recovery loop after a restart, which is given the Goal's current turn:
    it gets back exactly the keys that were saved iff they are recoverable.
   */
  method ReadBack(keys: seq<TurnKey>, goal: string, current: Option<TurnKey>)
    returns (r: Result<seq<TurnKey>, KeyError>)
    requires Storable(keys, goal)
    ensures r == Success(keys) <==> Recoverable(keys, current)
    ensures (forall i :: 0 <= i < |keys| ==> keys[i].number <= TWO_53) && (current.Some? ==> current.value in keys) ==>
              r == Success(keys)
    ensures current.None? ==> (r == Success(keys) <==> forall i :: 0 <= i < |keys| ==> IsBinary64(keys[i].number))
  {
    forall i | 0 <= i < |keys| && keys[i].number <= TWO_53
      ensures IsBinary64(keys[i].number)
    {
      SmallIsBinary64(keys[i].number);
    }
    CheckpointIs(keys);
    RecoveredExactly(keys, goal, current);
    if (forall i :: 0 <= i < |keys| ==> keys[i].number <= TWO_53) && (current.Some? ==> current.value in keys) {
      SmallIsRecoverable(keys, goal, current);
    }
    hide Reloaded, EntryKey, ValidKey, IsBinary64, Entry, Recoverable;
    r := Decode(Some(Reloaded(Encode(keys))), goal, current);
    if r.Success? {
      if forall k :: k in r.value <==> k in keys { SortedUnique(r.value, keys); }
    }
  }

  lemma {:induction false} SmallIsRecoverable(keys: seq<TurnKey>, goal: string, current: Option<TurnKey>)
    requires Storable(keys, goal) && (current.Some? ==> current.value in keys)
    requires forall i :: 0 <= i < |keys| ==> IsBinary64(keys[i].number)
    ensures Recoverable(keys, current)
  {
    if current.Some? {
      var i :| 0 <= i < |keys| && keys[i] == current.value;
      RecalledMeans(keys[i], goal);
    }
  }

  /** How each saved key reads back. */
  ghost predicate ReadsAs(k: TurnKey, goal: string) {
    && k.number >= 0 && ValidKey(k) && k.goal == goal && k.number < TWO_63
    && Recalled(k, goal) == (if Rounded(k.number) < TWO_63 then Success(AsRead(k)) else Failure(InvalidKey))
    && (IsBinary64(k.number) ==> AsRead(k) == k)
    && IsBinary64(AsRead(k).number)
  }

  lemma {:induction false} EachReadsAs(keys: seq<TurnKey>, goal: string)
    requires Storable(keys, goal)
    ensures forall i :: 0 <= i < |keys| ==> ReadsAs(keys[i], goal)
  {
    hide Recalled, Rounded, IsBinary64, AsRead, Text.Trimmed;
    forall i | 0 <= i < |keys|
      ensures ReadsAs(keys[i], goal)
    {
      RecalledMeans(keys[i], goal);
    }
  }

  /** A decoded checkpoint: what its keys read back as, and the current turn. */
  lemma {:induction false} DecodedMeans(keys: seq<TurnKey>, goal: string, current: Option<TurnKey>)
    requires Storable(keys, goal)
    ensures Decoded(Some(List(Checkpointed(keys))), goal, current).Success? <==>
            && (forall i :: 0 <= i < |keys| ==> Recalled(keys[i], goal).Success?)
            && (current.Some? ==> Accepted(current.value, goal).Success?)
    ensures Decoded(Some(List(Checkpointed(keys))), goal, current).Success? ==>
              forall k :: k in Decoded(Some(List(Checkpointed(keys))), goal, current).value <==>
                          ReadFrom(keys, goal, k) || current == Some(k)
  {
    NamedAsRead(keys, goal);
    hide Named, Checkpointed, Accepted, Recalled, Sorted, ReadFrom;
  }

  lemma {:induction false} RecoverableDecodes(keys: seq<TurnKey>, goal: string, current: Option<TurnKey>)
    requires Storable(keys, goal) && Recoverable(keys, current)
    ensures Decoded(Some(List(Checkpointed(keys))), goal, current).Success?
    ensures forall k :: k in Decoded(Some(List(Checkpointed(keys))), goal, current).value <==> k in keys
  {
    EachReadsAs(keys, goal);
    DecodedMeans(keys, goal, current);
    assert current.Some? ==> Accepted(current.value, goal).Success?;
    hide Decoded, Checkpointed, IsBinary64, Rounded, Recalled, ValidKey, Accepted, Sorted, AsRead;
    forall i | 0 <= i < |keys|
      ensures Recalled(keys[i], goal) == Success(AsRead(keys[i])) && AsRead(keys[i]) in keys
      ensures current != Some(keys[i]) ==> AsRead(keys[i]) == keys[i]
    {
      assert ReadsAs(keys[i], goal);
      if current == Some(keys[i]) {
        var j :| 0 <= j < |keys| && keys[j] == AsRead(keys[i]);
        assert ReadsAs(keys[j], goal);
        AsReadNumber(keys[i]);
      }
    }
    forall k
      ensures ReadFrom(keys, goal, k) || current == Some(k) <==> k in keys
    {
      if k in keys && current != Some(k) {
        var i :| 0 <= i < |keys| && keys[i] == k;
        assert Recalled(keys[i], goal) == Success(k);
      }
    }
  }

  lemma {:induction false} AsReadNumber(k: TurnKey)
    requires k.number >= 0
    ensures AsRead(k).number == Rounded(k.number)
  {
  }

  /** A saved key that is not the current one was read from some saved key, so its number is a binary64. */
  lemma {:induction false} OthersAreBinary64(keys: seq<TurnKey>, goal: string, i: nat)
    requires Storable(keys, goal) && i < |keys| && keys[i].number >= 0
    requires forall k :: 0 <= k < |keys| ==> keys[k].number >= 0
    requires ReadFrom(keys, goal, keys[i])
    ensures IsBinary64(keys[i].number)
  {
    EachReadsAs(keys, goal);
    hide IsBinary64, Rounded, Recalled, ValidKey, Sorted, AsRead, Owns;
    var j :| 0 <= j < |keys| && Recalled(keys[j], goal) == Success(keys[i]);
    assert ReadsAs(keys[j], goal);
  }

  lemma {:induction false} DecodedIsRecoverable(keys: seq<TurnKey>, goal: string, current: Option<TurnKey>)
    requires Storable(keys, goal)
    requires Decoded(Some(List(Checkpointed(keys))), goal, current).Success?
    requires forall k :: k in Decoded(Some(List(Checkpointed(keys))), goal, current).value <==> k in keys
    ensures Recoverable(keys, current)
  {
    EachReadsAs(keys, goal);
    DecodedMeans(keys, goal, current);
    hide Decoded, Checkpointed, IsBinary64, Rounded, Recalled, ValidKey, Accepted, Sorted, AsRead, Owns;
    assert forall i :: 0 <= i < |keys| ==> ReadsAs(keys[i], goal);
    forall i | 0 <= i < |keys| && current != Some(keys[i])
      ensures IsBinary64(keys[i].number)
    {
      assert keys[i] in keys;
      OthersAreBinary64(keys, goal, i);
    }
    if current.Some? {
      assert current.value in keys;
      var j :| 0 <= j < |keys| && keys[j] == current.value;
      assert Recalled(keys[j], goal).Success?;
      assert ReadFrom(keys, goal, AsRead(keys[j]));
    }
  }

  /** The decoded set is the saved one exactly for recoverable keys. */
  lemma {:induction false} RecoveredExactly(keys: seq<TurnKey>, goal: string, current: Option<TurnKey>)
    requires Storable(keys, goal)
    ensures Recoverable(keys, current) <==>
            && Decoded(Some(List(Checkpointed(keys))), goal, current).Success?
            && forall k :: k in Decoded(Some(List(Checkpointed(keys))), goal, current).value <==> k in keys
  {
    hide Recoverable, Decoded;
    if Recoverable(keys, current) {
      RecoverableDecodes(keys, goal, current);
    } else if && Decoded(Some(List(Checkpointed(keys))), goal, current).Success?
              && forall k :: k in Decoded(Some(List(Checkpointed(keys))), goal, current).value <==> k in keys {
      DecodedIsRecoverable(keys, goal, current);
    }
  }

  lemma {:induction false} FirstLostNumber()
    ensures Rounded(TWO_53 + 1) == TWO_53
  {
    assert Unit((TWO_53 + 1) / 2) == 1;
    assert Unit(TWO_53 + 1) == 2;
  }

  lemma {:induction false} KeptNumbers()
    ensures IsBinary64(TWO_53) && IsBinary64(TWO_53 + 2)
  {
    SmallIsBinary64(TWO_53);
    assert Pow2(1) == 2 * Pow2(0) == 2;
    assert IsScaled(TWO_53 + 2, TWO_53 / 2 + 1, 1);
  }

  lemma {:induction false} LostNumberIsNoBinary64()
    ensures !IsBinary64(TWO_53 + 1)
  {
    FirstLostNumber();
    if IsBinary64(TWO_53 + 1) { Binary64IsKept(TWO_53 + 1); }
  }

  /** The three turns 2^53, 2^53+1 and 2^53+2 of one Todo. */
  function Turn(goal: string, k: nat): TurnKey { TurnKey(goal, "todo_1", TWO_53 + k) }

  lemma {:induction false} TurnsAreStorable(goal: string, n: nat)
    requires TypedId(goal, "goal_") && n <= 3
    ensures Storable([Turn(goal, 0), Turn(goal, 1), Turn(goal, 2)][..n], goal)
  {
  }

  /** An older turn beyond 2^53 is not recovered: its settlement would be dropped. */
  lemma {:induction false} CollapsedExample(goal: string)
    requires TypedId(goal, "goal_")
    ensures Storable([Turn(goal, 0), Turn(goal, 1), Turn(goal, 2)], goal)
    ensures !Recoverable([Turn(goal, 0), Turn(goal, 1), Turn(goal, 2)], Some(Turn(goal, 2)))
    ensures Decoded(Some(List(Checkpointed([Turn(goal, 0), Turn(goal, 1), Turn(goal, 2)]))), goal, Some(Turn(goal, 2)))
            == Success({Turn(goal, 0), Turn(goal, 2)})
  {
    var keys := [Turn(goal, 0), Turn(goal, 1), Turn(goal, 2)];
    assert keys[..3] == keys;
    TurnsAreStorable(goal, 3);
    LostNumberIsNoBinary64();
    hide IsBinary64, TypedId, Rounded;
    assert !IsBinary64(keys[1].number);
    ThreeTurnsDecode(goal);
  }

  lemma {:induction false} ThreeTurnsRead(goal: string)
    requires TypedId(goal, "goal_")
    ensures Storable([Turn(goal, 0), Turn(goal, 1), Turn(goal, 2)], goal)
    ensures Recalled(Turn(goal, 0), goal) == Success(Turn(goal, 0))
    ensures Recalled(Turn(goal, 1), goal) == Success(Turn(goal, 0))
    ensures Recalled(Turn(goal, 2), goal) == Success(Turn(goal, 2))
  {
    var keys := [Turn(goal, 0), Turn(goal, 1), Turn(goal, 2)];
    assert keys[..3] == keys;
    TurnsAreStorable(goal, 3);
    EachReadsAs(keys, goal);
    KeptNumbers();
    FirstLostNumber();
    assert AsRead(keys[1]) == keys[0];
    hide IsBinary64, Rounded, TypedId, Recalled, Sorted, ValidKey;
    assert ReadsAs(keys[0], goal) && ReadsAs(keys[1], goal) && ReadsAs(keys[2], goal);
  }

  lemma {:induction false} ThreeTurnsDecode(goal: string)
    requires TypedId(goal, "goal_")
    ensures Decoded(Some(List(Checkpointed([Turn(goal, 0), Turn(goal, 1), Turn(goal, 2)]))), goal, Some(Turn(goal, 2)))
            == Success({Turn(goal, 0), Turn(goal, 2)})
  {
    var keys := [Turn(goal, 0), Turn(goal, 1), Turn(goal, 2)];
    ThreeTurnsRead(goal);
    DecodedMeans(keys, goal, Some(keys[2]));
    assert Accepted(keys[2], goal).Success? by { assert ValidKey(keys[2]) && keys[2].goal == goal; }
    hide Decoded, TypedId, Recalled, Checkpointed, Accepted, Storable;
    assert forall i :: 0 <= i < 3 ==> keys[i].number >= 0;
    forall k
      ensures ReadFrom(keys, goal, k) || k == keys[2] <==> k in {keys[0], keys[2]}
    {
      if k == keys[0] { assert Recalled(keys[0], goal) == Success(k); }
    }
    assert Decoded(Some(List(Checkpointed(keys))), goal, Some(keys[2])).value == {keys[0], keys[2]};
  }

  /** The same two numbers lose nothing when the lost one is the current turn. */
  lemma {:induction false} CurrentTurnIsRestored(goal: string)
    requires TypedId(goal, "goal_")
    ensures Storable([Turn(goal, 0), Turn(goal, 1)], goal)
    ensures Recoverable([Turn(goal, 0), Turn(goal, 1)], Some(Turn(goal, 1)))
    ensures !Recoverable([Turn(goal, 1)], Some(Turn(goal, 1)))
  {
    assert [Turn(goal, 0), Turn(goal, 1), Turn(goal, 2)][..2] == [Turn(goal, 0), Turn(goal, 1)];
    TurnsAreStorable(goal, 2);
    KeptNumbers();
    FirstLostNumber();
    hide IsBinary64, TypedId, Rounded;
    var keys := [Turn(goal, 0), Turn(goal, 1)];
    assert AsRead(keys[1]) == keys[0];
    assert keys[0] in keys && keys[1] in keys;
  }
}
