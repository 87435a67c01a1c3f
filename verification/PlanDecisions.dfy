/**
  Reading a plan decision: the duplicate-name scan over the JSON token stream,
  JSON pointers, and the shape rules of the steps
  (internal/application/plan_decisions.go).
 */
module PlanDecisions {
  import opened Wrappers

  // ----- JSON values and their tokens -----

  datatype Json = Scalar | Text(s: string) | Array(elements: Elements) | Object(members: Members)

  datatype Elements = NoElements | Element(first: Json, others: Elements)

  datatype Members = NoMembers | Member(name: string, value: Json, next: Members)

  datatype Token = OpenObject | CloseObject | OpenArray | CloseArray | Name(s: string) | Literal

  function Tokens(v: Json): seq<Token> {
    match v
    case Scalar => [Literal]
    case Text(s) => [Name(s)]
    case Array(elements) => [OpenArray] + ElementTokens(elements) + [CloseArray]
    case Object(members) => [OpenObject] + MemberTokens(members) + [CloseObject]
  }

  function ElementTokens(e: Elements): seq<Token> {
    match e
    case NoElements => []
    case Element(v, others) => Tokens(v) + ElementTokens(others)
  }

  function MemberTokens(m: Members): seq<Token> {
    match m
    case NoMembers => []
    case Member(name, v, next) => [Name(name)] + Tokens(v) + MemberTokens(next)
  }

  // ----- distinct names (RFC 8259, section 4) -----

  function Names(m: Members): set<string> {
    match m
    case NoMembers => {}
    case Member(name, _, next) => {name} + Names(next)
  }

  /** Every object at every depth has distinct names. */
  predicate Unique(v: Json) {
    match v
    case Array(elements) => UniqueElements(elements)
    case Object(members) => UniqueMembers(members)
    case _ => true
  }

  predicate UniqueElements(e: Elements) {
    match e
    case NoElements => true
    case Element(v, others) => Unique(v) && UniqueElements(others)
  }

  predicate UniqueMembers(m: Members) {
    match m
    case NoMembers => true
    case Member(name, v, next) => name !in Names(next) && Unique(v) && UniqueMembers(next)
  }

  // ----- pointers (RFC 6901, sections 3 and 4) -----

  function ReplaceAll(s: string, c: char, code: string): string {
    if s == [] then []
    else (if s[0] == c then code else [s[0]]) + ReplaceAll(s[1..], c, code)
  }

  function Escape(part: string): string { ReplaceAll(ReplaceAll(part, '~', "~0"), '/', "~1") }

  function JsonPointer(base: string, part: string): string { base + "/" + Escape(part) }

  function Pointer(parts: seq<string>): string {
    if parts == [] then "" else JsonPointer(Pointer(parts[..|parts| - 1]), parts[|parts| - 1])
  }

  /** Decoding replaces a two-character code from left to right. */
  function Decode(s: string, code: char, plain: char): string {
    if |s| < 2 then s
    else if s[0] == '~' && s[1] == code then [plain] + Decode(s[2..], code, plain)
    else [s[0]] + Decode(s[1..], code, plain)
  }

  function Unescape(s: string): string { Decode(Decode(s, '1', '/'), '0', '~') }

  function Digit(n: nat): char
    requires n < 10
  {
    ['0', '1', '2', '3', '4', '5', '6', '7', '8', '9'][n]
  }

  function Decimal(n: nat): string {
    if n < 10 then [Digit(n)] else Decimal(n / 10) + [Digit(n % 10)]
  }

  // ----- the scan, as a function of the remaining tokens -----

  datatype ScanError = UnexpectedEnd | KeyNotString(at: string) | Duplicate(at: string) | UnexpectedDelimiter
    | TrailingValue

  predicate More(ts: seq<Token>) { ts != [] && ts[0] != CloseObject && ts[0] != CloseArray }

  function ScanValue(ts: seq<Token>, path: string): (r: Result<seq<Token>, ScanError>)
    ensures r.Success? ==> |r.value| < |ts|
    decreases |ts|, 0
  {
    if ts == [] then Failure(UnexpectedEnd)
    else
      match ts[0]
      case OpenObject => ScanMembers(ts[1..], path, {})
      case OpenArray => ScanElements(ts[1..], path, 0)
      case CloseObject | CloseArray => Failure(UnexpectedDelimiter)
      case _ => Success(ts[1..])
  }

  function Closed(ts: seq<Token>): Result<seq<Token>, ScanError> {
    if ts == [] then Failure(UnexpectedEnd) else Success(ts[1..])
  }

  function ScanMembers(ts: seq<Token>, path: string, seen: set<string>): (r: Result<seq<Token>, ScanError>)
    ensures r.Success? ==> |r.value| < |ts|
    decreases |ts|, 1
  {
    if !More(ts) then Closed(ts)
    else if !ts[0].Name? then Failure(KeyNotString(path))
    else if ts[0].s in seen then Failure(Duplicate(JsonPointer(path, ts[0].s)))
    else
      match ScanValue(ts[1..], JsonPointer(path, ts[0].s))
      case Failure(e) => Failure(e)
      case Success(rest) => ScanMembers(rest, path, seen + {ts[0].s})
  }

  function ScanElements(ts: seq<Token>, path: string, index: nat): (r: Result<seq<Token>, ScanError>)
    ensures r.Success? ==> |r.value| < |ts|
    decreases |ts|, 1
  {
    if !More(ts) then Closed(ts)
    else
      match ScanValue(ts, JsonPointer(path, Decimal(index)))
      case Failure(e) => Failure(e)
      case Success(rest) => ScanElements(rest, path, index + 1)
  }

  // ----- the decoder and the scanner -----

  class Decoder {
    const tokens: seq<Token>
    var pos: nat

    constructor (tokens: seq<Token>)
      ensures this.tokens == tokens && pos == 0
    {
      this.tokens := tokens;
      pos := 0;
    }

    ghost predicate Valid()
      reads this
    {
      pos <= |tokens|
    }

    ghost function Rest(): seq<Token>
      reads this
      requires Valid()
    {
      tokens[pos..]
    }

    method NextToken() returns (r: Result<Token, ScanError>)
      requires Valid()
      modifies this`pos
      ensures Valid()
      ensures old(Rest()) == [] ==> r == Failure(UnexpectedEnd) && pos == old(pos)
      ensures old(Rest()) != [] ==> r == Success(old(Rest())[0]) && Rest() == old(Rest())[1..] && pos == old(pos) + 1
    {
      if pos == |tokens| { return Failure(UnexpectedEnd); }
      pos := pos + 1;
      return Success(tokens[pos - 1]);
    }

    method HasMore() returns (more: bool)
      requires Valid()
      ensures more == More(Rest())
    {
      more := pos < |tokens| && tokens[pos] != CloseObject && tokens[pos] != CloseArray;
    }

    /** scanUniqueJSONValue */
    method ScanUniqueJSONValue(path: string) returns (e: Option<ScanError>)
      requires Valid()
      modifies this`pos
      ensures Valid()
      ensures match ScanValue(old(Rest()), path)
              case Success(rest) => e.None? && Rest() == rest && pos > old(pos)
              case Failure(error) => e == Some(error)
      decreases |tokens| - pos
    {
      ghost var given := Rest();
      var token := NextToken();
      if token.Failure? { return Some(token.error); }
      match token.value {
        case OpenObject =>
          var seen: set<string> := {};
          var more := HasMore();
          while more
            invariant Valid() && pos > old(pos) && more == More(Rest())
            invariant ScanValue(given, path) == ScanMembers(Rest(), path, seen)
            decreases |tokens| - pos
          {
            var key := NextToken();
            if key.Failure? { return Some(key.error); }
            if !key.value.Name? { return Some(KeyNotString(path)); }
            if key.value.s in seen { return Some(Duplicate(JsonPointer(path, key.value.s))); }
            var inner := ScanUniqueJSONValue(JsonPointer(path, key.value.s));
            if inner.Some? { return inner; }
            seen := seen + {key.value.s};
            more := HasMore();
          }
          var end := NextToken();
          return if end.Failure? then Some(end.error) else None;
        case OpenArray =>
          var index := 0;
          var more := HasMore();
          while more
            invariant Valid() && pos > old(pos) && more == More(Rest())
            invariant ScanValue(given, path) == ScanElements(Rest(), path, index)
            decreases |tokens| - pos
          {
            var inner := ScanUniqueJSONValue(JsonPointer(path, Decimal(index)));
            if inner.Some? { return inner; }
            index := index + 1;
            more := HasMore();
          }
          var end := NextToken();
          return if end.Failure? then Some(end.error) else None;
        case CloseObject | CloseArray =>
          return Some(UnexpectedDelimiter);
        case _ =>
          return None;
      }
    }
  }

  // ----- what the scan decides -----

  /** The path of the first name, in document order, that its object has already used. */
  function Repeat(v: Json, at: seq<string>): Option<seq<string>> {
    match v
    case Array(elements) => RepeatAmong(elements, at, 0)
    case Object(members) => RepeatIn(members, at, {})
    case _ => None
  }

  function RepeatAmong(e: Elements, at: seq<string>, index: nat): Option<seq<string>> {
    match e
    case NoElements => None
    case Element(v, others) =>
      var inside := Repeat(v, at + [Decimal(index)]);
      if inside.Some? then inside else RepeatAmong(others, at, index + 1)
  }

  function RepeatIn(m: Members, at: seq<string>, seen: set<string>): Option<seq<string>> {
    match m
    case NoMembers => None
    case Member(name, v, next) =>
      if name in seen then Some(at + [name])
      else
        var inside := Repeat(v, at + [name]);
        if inside.Some? then inside else RepeatIn(next, at, seen + {name})
  }

  function Verdict(repeat: Option<seq<string>>, rest: seq<Token>): Result<seq<Token>, ScanError> {
    match repeat
    case None => Success(rest)
    case Some(p) => Failure(Duplicate(Pointer(p)))
  }

  lemma {:induction false} PointerGrows(at: seq<string>, part: string)
    ensures Pointer(at + [part]) == JsonPointer(Pointer(at), part)
  {
    assert (at + [part])[..|at|] == at;
  }

  lemma {:induction false} ValueStarts(v: Json, after: seq<Token>)
    ensures Tokens(v) != [] && More(Tokens(v) + after)
  {
  }

  /** Whatever follows it, the scan of a value consumes that value and no more, or names its first repeated member. */
  lemma {:induction false} ScansOneValue(v: Json, rest: seq<Token>, at: seq<string>)
    ensures ScanValue(Tokens(v) + rest, Pointer(at)) == Verdict(Repeat(v, at), rest)
    decreases v
  {
    var ts := Tokens(v) + rest;
    match v {
      case Array(elements) =>
        assert ts[1..] == ElementTokens(elements) + ([CloseArray] + rest);
        ScansElements(elements, rest, at, 0);
      case Object(members) =>
        assert ts[1..] == MemberTokens(members) + ([CloseObject] + rest);
        ScansMembers(members, rest, at, {});
      case Scalar => assert ts[1..] == rest;
      case Text(_) => assert ts[1..] == rest;
    }
  }

  lemma {:induction false} ScansElements(e: Elements, rest: seq<Token>, at: seq<string>, index: nat)
    ensures ScanElements(ElementTokens(e) + ([CloseArray] + rest), Pointer(at), index)
              == Verdict(RepeatAmong(e, at, index), rest)
    decreases e
  {
    var ts := ElementTokens(e) + ([CloseArray] + rest);
    match e {
      case NoElements => assert ts == [CloseArray] + rest;
      case Element(v, others) =>
        var after := ElementTokens(others) + ([CloseArray] + rest);
        assert ts == Tokens(v) + after;
        ValueStarts(v, after);
        PointerGrows(at, Decimal(index));
        ScansOneValue(v, after, at + [Decimal(index)]);
        ScansElements(others, rest, at, index + 1);
    }
  }

  lemma {:induction false} ScansMembers(m: Members, rest: seq<Token>, at: seq<string>, seen: set<string>)
    ensures ScanMembers(MemberTokens(m) + ([CloseObject] + rest), Pointer(at), seen)
              == Verdict(RepeatIn(m, at, seen), rest)
    decreases m
  {
    var ts := MemberTokens(m) + ([CloseObject] + rest);
    match m {
      case NoMembers => assert ts == [CloseObject] + rest;
      case Member(name, v, next) =>
        var after := MemberTokens(next) + ([CloseObject] + rest);
        assert ts[0] == Name(name) && ts[1..] == Tokens(v) + after;
        PointerGrows(at, name);
        ScansOneValue(v, after, at + [name]);
        ScansMembers(next, rest, at, seen + {name});
    }
  }

  /** The scan succeeds exactly when every object at every depth has distinct names. */
  lemma {:induction false} RepeatsExactly(v: Json, at: seq<string>)
    ensures Repeat(v, at).None? <==> Unique(v)
    decreases v
  {
    match v
    case Array(elements) => RepeatsAmongExactly(elements, at, 0);
    case Object(members) => RepeatsInExactly(members, at, {});
    case _ =>
  }

  lemma {:induction false} RepeatsAmongExactly(e: Elements, at: seq<string>, index: nat)
    ensures RepeatAmong(e, at, index).None? <==> UniqueElements(e)
    decreases e
  {
    if e.Element? {
      RepeatsExactly(e.first, at + [Decimal(index)]);
      RepeatsAmongExactly(e.others, at, index + 1);
    }
  }

  lemma {:induction false} RepeatsInExactly(m: Members, at: seq<string>, seen: set<string>)
    ensures RepeatIn(m, at, seen).None? <==> UniqueMembers(m) && Names(m) !! seen
    decreases m
  {
    if m.Member? {
      RepeatsExactly(m.value, at + [m.name]);
      RepeatsInExactly(m.next, at, seen + {m.name});
    }
  }

  /** rejectDuplicateJSONKeys: one value, distinct names throughout, and nothing after it. */
  method RejectDuplicateJSONKeys(v: Json, rest: seq<Token>) returns (e: Option<ScanError>)
    ensures e.None? <==> Unique(v) && rest == []
    ensures !Unique(v) ==> Repeat(v, []).Some? && e == Some(Duplicate(Pointer(Repeat(v, []).value)))
    ensures Unique(v) && rest != [] ==> e == Some(TrailingValue)
  {
    ScansOneValue(v, rest, []);
    RepeatsExactly(v, []);
    var decoder := new Decoder(Tokens(v) + rest);
    assert decoder.Rest() == Tokens(v) + rest;
    e := decoder.ScanUniqueJSONValue("");
    if e.Some? { return; }
    var token := decoder.NextToken();
    e := if token.Success? then Some(TrailingValue) else None;
  }

  // ----- pointers tell paths apart -----

  lemma {:induction false} NoSlashLeft(s: string)
    ensures '/' !in Escape(s)
  {
    SlashReplaced(ReplaceAll(s, '~', "~0"));
  }

  lemma {:induction false} SlashReplaced(s: string)
    ensures '/' !in ReplaceAll(s, '/', "~1")
  {
    if s != [] { SlashReplaced(s[1..]); }
  }

  /** In this text every tilde starts one of the two codes. */
  predicate Coded(s: string) {
    s == [] || (if s[0] == '~' then |s| >= 2 && s[1] == '0' && Coded(s[2..]) else Coded(s[1..]))
  }

  lemma {:induction false} TildesCoded(s: string)
    ensures Coded(ReplaceAll(s, '~', "~0")) && Decode(ReplaceAll(s, '~', "~0"), '0', '~') == s
  {
    if s != [] {
      TildesCoded(s[1..]);
      var tail := ReplaceAll(s[1..], '~', "~0");
      if s[0] == '~' {
        assert ("~0" + tail)[2..] == tail;
      } else {
        assert ([s[0]] + tail)[1..] == tail;
      }
      assert s == [s[0]] + s[1..];
    }
  }

  lemma {:induction false} SlashesDecoded(s: string)
    requires Coded(s)
    ensures Decode(ReplaceAll(s, '/', "~1"), '1', '/') == s
  {
    if s == [] {
    } else if s[0] == '~' {
      SlashesDecoded(s[2..]);
      var tail := ReplaceAll(s[2..], '/', "~1");
      assert s[1..] == [s[1]] + s[2..];
      assert ReplaceAll(s[1..], '/', "~1") == ['0'] + tail;
      var coded := ['~'] + (['0'] + tail);
      assert ReplaceAll(s, '/', "~1") == coded;
      assert coded[1..] == ['0'] + tail && (['0'] + tail)[1..] == tail;
      ZeroStays(tail);
      assert s == ['~', '0'] + s[2..];
    } else {
      SlashesDecoded(s[1..]);
      var tail := ReplaceAll(s[1..], '/', "~1");
      if s[0] == '/' {
        assert ("~1" + tail)[2..] == tail;
      } else {
        assert ([s[0]] + tail)[1..] == tail;
      }
      assert s == [s[0]] + s[1..];
    }
  }

  lemma {:induction false} ZeroStays(tail: string)
    ensures Decode(['0'] + tail, '1', '/') == ['0'] + Decode(tail, '1', '/')
  {
    assert (['0'] + tail)[1..] == tail;
  }

  /** Decoding as RFC 6901 section 4 prescribes undoes the escaping. */
  lemma {:induction false} EscapeRoundTrip(s: string)
    ensures Unescape(Escape(s)) == s
  {
    TildesCoded(s);
    SlashesDecoded(ReplaceAll(s, '~', "~0"));
  }

  lemma {:induction false} NoSlashAfter(a: string, x: string)
    requires '/' !in x
    ensures forall k :: |a| < k < |a + "/" + x| ==> (a + "/" + x)[k] != '/'
  {
    forall k | |a| < k < |a + "/" + x|
      ensures (a + "/" + x)[k] != '/'
    {
      assert (a + "/" + x)[k] == x[k - |a| - 1];
    }
  }

  lemma {:induction false} LastSlash(a: string, x: string, b: string, y: string)
    requires a + "/" + x == b + "/" + y && '/' !in x && '/' !in y
    ensures a == b && x == y
  {
    var s := a + "/" + x;
    assert s[|a|] == '/' && s[|b|] == '/';
    NoSlashAfter(a, x);
    NoSlashAfter(b, y);
    assert s[..|a|] == a && s[..|b|] == b;
    assert s[|a| + 1..] == x && s[|b| + 1..] == y;
  }

  /** Two different paths never share a pointer. */
  lemma {:induction false} PointerInjective(p: seq<string>, q: seq<string>)
    requires Pointer(p) == Pointer(q)
    ensures p == q
  {
    hide Escape, Unescape;
    if p != [] && q != [] {
      var x, y := p[|p| - 1], q[|q| - 1];
      NoSlashLeft(x);
      NoSlashLeft(y);
      LastSlash(Pointer(p[..|p| - 1]), Escape(x), Pointer(q[..|q| - 1]), Escape(y));
      PointerInjective(p[..|p| - 1], q[..|q| - 1]);
      EscapeRoundTrip(x);
      EscapeRoundTrip(y);
      assert p == p[..|p| - 1] + [x] && q == q[..|q| - 1] + [y];
    }
  }

  // ----- the shape of a decision -----

  datatype Verb = ConsultKnowledge | Dispatch | Defer | Join | Finish | Unsupported

  /** A dispatch step carries its branch; knowledgeFrom is the step it wants knowledge from. */
  datatype PlanStep = PlanStep(verb: Verb, hasDispatch: bool, knowledgeFrom: Option<int>)

  predicate Barrier(v: Verb) { v == Defer || v == Join }

  predicate Dispatches(steps: seq<PlanStep>) {
    exists i :: 0 <= i < |steps| && steps[i].verb == Dispatch
  }

  /** What may be said of one step in its place: no forward knowledge, and an ending only at the end. */
  predicate Fits(steps: seq<PlanStep>, i: nat)
    requires i < |steps|
  {
    match steps[i].verb
    case ConsultKnowledge => true
    case Dispatch =>
      && steps[i].hasDispatch
      && (steps[i].knowledgeFrom.Some? ==>
          0 <= steps[i].knowledgeFrom.value < i && steps[steps[i].knowledgeFrom.value].verb == ConsultKnowledge)
    case Defer | Join => i == |steps| - 1
    case Finish => i == |steps| - 1 && !Dispatches(steps[..i])
    case Unsupported => false
  }

  /** A decision that dispatches work must wait for it: its last step is a join or a defer. */
  predicate WellShaped(steps: seq<PlanStep>) {
    && (forall i :: 0 <= i < |steps| ==> Fits(steps, i))
    && (Dispatches(steps) ==> Barrier(steps[|steps| - 1].verb))
  }

  /** Where a decision is rejected; None stands for the step list as a whole. */
  datatype Rejection = Rejection(step: Option<nat>)

  /** validatePlanDecisionSemantics */
  method ValidatePlanDecisionSemantics(steps: seq<PlanStep>) returns (r: Option<Rejection>)
    ensures r.None? <==> WellShaped(steps)
    ensures r.Some? && r.value.step.Some? ==>
              && r.value.step.value < |steps| && !Fits(steps, r.value.step.value)
              && forall j :: 0 <= j < r.value.step.value ==> Fits(steps, j)
    ensures r.Some? && r.value.step.None? ==>
              (forall j :: 0 <= j < |steps| ==> Fits(steps, j)) && Dispatches(steps)
                && !Barrier(steps[|steps| - 1].verb)
  {
    var awaiting := false;
    var i := 0;
    while i < |steps|
      invariant 0 <= i <= |steps|
      invariant forall j :: 0 <= j < i ==> Fits(steps, j)
      invariant i < |steps| ==> awaiting == Dispatches(steps[..i])
      invariant i == |steps| ==> awaiting == (Dispatches(steps) && !Barrier(steps[|steps| - 1].verb))
    {
      var step := steps[i];
      ghost var fits := Fits(steps, i);
      assert Dispatches(steps[..i + 1]) <==> Dispatches(steps[..i]) || step.verb == Dispatch by {
        DispatchesGrow(steps, i);
      }
      match step.verb {
        case ConsultKnowledge =>
        case Dispatch =>
          if !step.hasDispatch { return Some(Rejection(Some(i))); }
          if step.knowledgeFrom.Some? {
            var ref := step.knowledgeFrom.value;
            if ref < 0 || ref >= i || steps[ref].verb != ConsultKnowledge { return Some(Rejection(Some(i))); }
          }
          awaiting := true;
        case Defer | Join =>
          awaiting := false;
          if i != |steps| - 1 { return Some(Rejection(Some(i))); }
        case Finish =>
          if awaiting { return Some(Rejection(Some(i))); }
          if i != |steps| - 1 { return Some(Rejection(Some(i))); }
        case Unsupported =>
          return Some(Rejection(Some(i)));
      }
      i := i + 1;
      assert i == |steps| ==> steps[..i] == steps;
    }
    if awaiting { return Some(Rejection(None)); }
    return None;
  }

  lemma {:induction false} DispatchesGrow(steps: seq<PlanStep>, i: nat)
    requires i < |steps|
    ensures Dispatches(steps[..i + 1]) <==> Dispatches(steps[..i]) || steps[i].verb == Dispatch
  {
    if Dispatches(steps[..i]) {
      var j :| 0 <= j < i && steps[..i][j].verb == Dispatch;
      assert steps[..i + 1][j].verb == Dispatch;
    }
    if steps[i].verb == Dispatch { assert steps[..i + 1][i].verb == Dispatch; }
    if Dispatches(steps[..i + 1]) {
      var j :| 0 <= j < i + 1 && steps[..i + 1][j].verb == Dispatch;
      if j < i { assert steps[..i][j].verb == Dispatch; }
    }
  }
}
