/**
  The move of legacy Agent bundles into a workspace directory, as a protocol that
  survives a crash at any durable step (internal/agentconfig/workspace_layout.go).

  The file system is two maps, the directories of the root and the directories of
  every workspace, plus the receipt file. A digest is modelled as the files it
  was computed from, so equal digests mean equal contents.
 */
module WorkspaceLayout {
  import opened Wrappers
  import Ordering
  import Text

  /** A directory: its regular files, and whether anything else was found in it. */
  datatype Bundle = Bundle(files: map<string, string>, irregular: bool)

  type Digest = map<string, string>

  datatype Frozen = Frozen(slug: string, digest: Option<Digest>)

  datatype State = Pending | Complete | Unknown

  datatype Receipt = Receipt(version: int, workspaceId: string, state: State, bundles: seq<Frozen>)

  /** The receipt file: absent, not decodable, or decoded. */
  datatype ReceiptFile = Missing | Garbled | Stored(receipt: Receipt)

  datatype Layout = Layout(
    root: map<string, Bundle>, homes: map<(string, string), Bundle>, receipt: ReceiptFile)

  datatype Error = Invalid | Conflict

  /** A call ends, is refused, or is cut off by a crash before a durable step. */
  datatype Outcome = Done | Refused(error: Error) | Crashed

  /** How many durable steps a call may still take. */
  datatype Budget = Unlimited | Steps(left: nat)
  {
    predicate Exhausted() {
      this == Steps(0)
    }

    function Spend(): Budget
      requires !Exhausted()
    {
      if Unlimited? then this else Steps(left - 1)
    }
  }

  const MAX_BUNDLES := 1024
  const MAX_FILES := 4096

  predicate IsControl(c: char) {
    c < ' ' || '\U{007F}' <= c <= '\U{009F}'
  }

  predicate ValidSlug(s: string) {
    && Text.Trimmed(s) && s != "" && s != "." && s != ".."
    && (forall c | c in s :: c != '/' && c != '\\' && c != ':' && !IsControl(c))
  }

  function DigestOf(b: Bundle): Option<Digest> {
    if b.irregular || b.files == map[] || |b.files| > MAX_FILES then None else Some(b.files)
  }

  // ----- reading the legacy directories and the receipt -----

  /** Slugs of the directories that hold an Agent configuration, in listing order. */
  function LoadNames(root: map<string, Bundle>, parses: string -> bool, names: seq<string>): Result<seq<string>, Error>
    requires forall n | n in names :: n in root
  {
    if names == [] then Success([])
    else if names[0] != "" && names[0][0] == '.' then LoadNames(root, parses, names[1..])
    else if !ValidSlug(names[0]) then Failure(Invalid)
    else if "agent.yaml" !in root[names[0]].files then LoadNames(root, parses, names[1..])
    else if !parses(root[names[0]].files["agent.yaml"]) then Failure(Invalid)
    else
      match LoadNames(root, parses, names[1..])
      case Failure(e) => Failure(e)
      case Success(rest) => Success([names[0]] + rest)
  }

  function LoadDir(root: map<string, Bundle>, parses: string -> bool): Result<seq<string>, Error> {
    LoadNames(root, parses, Ordering.Listing(root.Keys))
  }

  predicate ReceiptValid(r: Receipt) {
    && r.version == 1 && ValidSlug(r.workspaceId) && r.state != Unknown
    && 0 < |r.bundles| <= MAX_BUNDLES
    && (forall i | 0 <= i < |r.bundles| ::
          ValidSlug(r.bundles[i].slug) && r.bundles[i].slug != "workspaces" && r.bundles[i].digest.Some?)
    && (forall i, j | 0 <= i < j < |r.bundles| :: r.bundles[i].slug != r.bundles[j].slug)
  }

  /** The set a receipt freezes, or the refusal that stops the call before anything moves. */
  function Freeze(fs: Layout, ws: string, legacy: seq<string>): Result<seq<Frozen>, Error>
    requires forall n | n in legacy :: n in fs.root
  {
    if legacy == [] then Success([])
    else if !ValidSlug(legacy[0]) || legacy[0] == "workspaces" then Failure(Invalid)
    else if DigestOf(fs.root[legacy[0]]).None? then Failure(Invalid)
    else if (ws, legacy[0]) in fs.homes then Failure(Conflict)
    else
      match Freeze(fs, ws, legacy[1..])
      case Failure(e) => Failure(e)
      case Success(rest) => Success([Frozen(legacy[0], DigestOf(fs.root[legacy[0]]))] + rest)
  }

  // ----- moving -----

  function Move(fs: Layout, ws: string, slug: string): Layout
    requires slug in fs.root
  {
    fs.(root := fs.root - {slug}, homes := fs.homes[(ws, slug) := fs.root[slug]])
  }

  /** Why a frozen bundle cannot be taken further, if so. */
  function Obstacle(fs: Layout, ws: string, b: Frozen): Option<Error> {
    var inRoot, inHome := b.slug in fs.root, (ws, b.slug) in fs.homes;
    if inRoot == inHome then Some(Conflict)
    else
      var digest := DigestOf(if inRoot then fs.root[b.slug] else fs.homes[(ws, b.slug)]);
      if digest.None? then Some(Invalid)
      else if digest != b.digest then Some(Conflict)
      else None
  }

  function MoveAll(fs: Layout, ws: string, bundles: seq<Frozen>, budget: Budget): (Layout, Budget, Outcome)
    decreases |bundles|
  {
    if bundles == [] then (fs, budget, Done)
    else
      var obstacle := Obstacle(fs, ws, bundles[0]);
      if obstacle.Some? then (fs, budget, Refused(obstacle.value))
      else if bundles[0].slug !in fs.root then MoveAll(fs, ws, bundles[1..], budget)
      else if budget.Exhausted() then (fs, budget, Crashed)
      else MoveAll(Move(fs, ws, bundles[0].slug), ws, bundles[1..], budget.Spend())
  }

  predicate AllExpected(legacy: seq<string>, bundles: seq<Frozen>) {
    forall n | n in legacy :: exists b :: b in bundles && b.slug == n
  }

  /** From a pending receipt of this workspace to the end. */
  function Resume(fs: Layout, ws: string, legacy: seq<string>, parses: string -> bool, budget: Budget)
    : (Layout, Outcome)
    requires fs.receipt.Stored?
  {
    var r := fs.receipt.receipt;
    if r.workspaceId != ws || !AllExpected(legacy, r.bundles) then (fs, Refused(Conflict))
    else
      var (moved, rest, outcome) := MoveAll(fs, ws, r.bundles, budget);
      if outcome != Done then (moved, outcome)
      else
        match LoadDir(moved.root, parses)
        case Failure(e) => (moved, Refused(e))
        case Success(remaining) =>
          if remaining != [] then (moved, Refused(Conflict))
          else if rest.Exhausted() then (moved, Crashed)
          else (moved.(receipt := Stored(r.(state := Complete))), Done)
  }

  function NewReceipt(ws: string, bundles: seq<Frozen>): ReceiptFile {
    Stored(Receipt(1, ws, Pending, bundles))
  }

  /** One call of the migration, cut off after a number of durable steps. */
  function Migrate(fs: Layout, ws: string, ids: seq<string>, parses: string -> bool, budget: Budget)
    : (Layout, Outcome) {
    if !ValidSlug(ws) then (fs, Refused(Invalid))
    else
      match LoadDir(fs.root, parses)
      case Failure(e) => (fs, Refused(e))
      case Success(legacy) =>
        LoadedAreThere(fs.root, parses, Ordering.Listing(fs.root.Keys));
        if fs.receipt.Garbled? || (fs.receipt.Stored? && !ReceiptValid(fs.receipt.receipt)) then
          (fs, Refused(Conflict))
        else if fs.receipt.Stored? && fs.receipt.receipt.state == Complete then
          (fs, if legacy != [] then Refused(Conflict) else Done)
        else if fs.receipt.Missing? && legacy == [] then (fs, Done)
        else if ids != [ws] then (fs, Refused(Conflict))
        else if fs.receipt.Stored? then Resume(fs, ws, legacy, parses, budget)
        else if |legacy| > MAX_BUNDLES then (fs, Refused(Invalid))
        else
          match Freeze(fs, ws, legacy)
          case Failure(e) => (fs, Refused(e))
          case Success(bundles) =>
            if budget.Exhausted() then (fs, Crashed)
            else Resume(fs.(receipt := NewReceipt(ws, bundles)), ws, legacy, parses, budget.Spend())
  }

  lemma {:induction false} LoadedAreThere(root: map<string, Bundle>, parses: string -> bool, names: seq<string>)
    requires forall n | n in names :: n in root
    ensures LoadNames(root, parses, names).Success? ==>
              forall n | n in LoadNames(root, parses, names).value ::
                n in names && n in root && ValidSlug(n) && "agent.yaml" in root[n].files
    decreases |names|
  {
    if names != [] { LoadedAreThere(root, parses, names[1..]); }
  }

  // ----- the migration as it runs, directory by directory -----

  class FileSystem {
    var root: map<string, Bundle>
    var homes: map<(string, string), Bundle>
    var receipt: ReceiptFile

    ghost function State(): Layout
      reads this
    {
      Layout(root, homes, receipt)
    }

    method Rename(ws: string, slug: string)
      requires slug in root
      modifies this`root, this`homes
      ensures State() == Move(old(State()), ws, slug)
    {
      homes := homes[(ws, slug) := root[slug]];
      root := root - {slug};
    }

    /** The loop over the frozen bundles. */
    method Relocate(ws: string, bundles: seq<Frozen>, budget: Budget) returns (rest: Budget, outcome: Outcome)
      modifies this`root, this`homes
      ensures (State(), rest, outcome) == MoveAll(old(State()), ws, bundles, budget)
    {
      rest := budget;
      for i := 0 to |bundles|
        invariant receipt == old(receipt)
        invariant MoveAll(State(), ws, bundles[i..], rest) == MoveAll(old(State()), ws, bundles, budget)
      {
        var b := bundles[i];
        assert bundles[i..][0] == b && bundles[i..][1..] == bundles[i + 1..];
        var inRoot, inHome := b.slug in root, (ws, b.slug) in homes;
        if inRoot && inHome {
          return rest, Refused(Conflict);
        }
        if !inRoot && !inHome {
          return rest, Refused(Conflict);
        }
        var digest := DigestOf(if inRoot then root[b.slug] else homes[(ws, b.slug)]);
        if digest.None? {
          return rest, Refused(Invalid);
        }
        if digest != b.digest {
          return rest, Refused(Conflict);
        }
        if inRoot {
          if rest.Exhausted() {
            return rest, Crashed;
          }
          Rename(ws, b.slug);
          rest := rest.Spend();
          assert DigestOf(homes[(ws, b.slug)]) == b.digest;
        }
      }
      outcome := Done;
    }

    method MigrateWorkspaceLayout(ws: string, ids: seq<string>, parses: string -> bool, budget: Budget)
      returns (outcome: Outcome)
      modifies this
      ensures (State(), outcome) == Migrate(old(State()), ws, ids, parses, budget)
    {
      if !ValidSlug(ws) {
        return Refused(Invalid);
      }
      var legacy := LoadDir(root, parses);
      if legacy.Failure? {
        return Refused(legacy.error);
      }
      LoadedAreThere(root, parses, Ordering.Listing(root.Keys));
      if receipt.Garbled? || (receipt.Stored? && !ReceiptValid(receipt.receipt)) {
        return Refused(Conflict);
      }
      if receipt.Stored? && receipt.receipt.state == Complete {
        return if legacy.value != [] then Refused(Conflict) else Done;
      }
      if receipt.Missing? && legacy.value == [] {
        return Done;
      }
      if ids != [ws] {
        return Refused(Conflict);
      }
      var rest := budget;
      if receipt.Missing? {
        if |legacy.value| > MAX_BUNDLES {
          return Refused(Invalid);
        }
        var bundles := FreezeLegacy(ws, legacy.value);
        if bundles.Failure? {
          return Refused(bundles.error);
        }
        if rest.Exhausted() {
          return Crashed;
        }
        receipt := NewReceipt(ws, bundles.value);
        rest := rest.Spend();
      }
      ghost var before := State();
      var r := receipt.receipt;
      if r.workspaceId != ws {
        return Refused(Conflict);
      }
      if !AllExpected(legacy.value, r.bundles) {
        return Refused(Conflict);
      }
      rest, outcome := Relocate(ws, r.bundles, rest);
      if outcome != Done {
        return;
      }
      var remaining := LoadDir(root, parses);
      if remaining.Failure? {
        return Refused(remaining.error);
      }
      if remaining.value != [] {
        return Refused(Conflict);
      }
      if rest.Exhausted() {
        return Crashed;
      }
      receipt := Stored(r.(state := Complete));
      return Done;
    }

    method FreezeLegacy(ws: string, legacy: seq<string>) returns (bundles: Result<seq<Frozen>, Error>)
      requires forall n | n in legacy :: n in root
      ensures bundles == Freeze(State(), ws, legacy)
    {
      var frozen: seq<Frozen> := [];
      assert legacy[0..] == legacy;
      assert Freeze(State(), ws, legacy).Success? ==>
          frozen + Freeze(State(), ws, legacy).value == Freeze(State(), ws, legacy).value;
      for i := 0 to |legacy|
        invariant Freeze(State(), ws, legacy) ==
                  match Freeze(State(), ws, legacy[i..]) {
                    case Failure(e) => Failure(e)
                    case Success(rest) => Success(frozen + rest)
                  }
      {
        var slug := legacy[i];
        assert legacy[i..][0] == slug && legacy[i..][1..] == legacy[i + 1..];
        if !ValidSlug(slug) || slug == "workspaces" {
          return Failure(Invalid);
        }
        var digest := DigestOf(root[slug]);
        if digest.None? {
          return Failure(Invalid);
        }
        if (ws, slug) in homes {
          return Failure(Conflict);
        }
        ghost var rest := Freeze(State(), ws, legacy[i + 1..]);
        assert rest.Success? ==>
            frozen + ([Frozen(slug, digest)] + rest.value) == frozen + [Frozen(slug, digest)] + rest.value;
        frozen := frozen + [Frozen(slug, digest)];
      }
      assert legacy[|legacy|..] == [] && frozen + [] == frozen;
      return Success(frozen);
    }
  }
  // ----- what the readings mean -----

  predicate Hidden(n: string) {
    n != "" && n[0] == '.'
  }

  /** A directory listing that can be loaded, and the Agents it then shows. */
  predicate Loadable(root: map<string, Bundle>, parses: string -> bool, n: string)
    requires n in root
  {
    Hidden(n) || (ValidSlug(n) && ("agent.yaml" in root[n].files ==> parses(root[n].files["agent.yaml"])))
  }

  predicate IsAgent(root: map<string, Bundle>, n: string) {
    n in root && !Hidden(n) && "agent.yaml" in root[n].files
  }

  lemma {:induction false} HeadIn<T>(xs: seq<T>)
    ensures xs != [] ==> xs[0] in xs
  {
  }

  lemma {:induction false} HeadOrTail<T>(xs: seq<T>)
    requires xs != []
    ensures forall x :: x in xs <==> x == xs[0] || x in xs[1..]
  {
    assert xs == [xs[0]] + xs[1..];
  }

  lemma {:induction false} LoadMeans(root: map<string, Bundle>, parses: string -> bool, names: seq<string>)
    requires forall n | n in names :: n in root
    ensures LoadNames(root, parses, names).Success? <==> forall n | n in names :: Loadable(root, parses, n)
    ensures LoadNames(root, parses, names).Success? ==>
              forall n :: n in LoadNames(root, parses, names).value <==> n in names && IsAgent(root, n)
    decreases |names|
  {
    hide ValidSlug;
    if names == [] {
    } else {
      var rest := names[1..];
      LoadMeans(root, parses, rest);
      var ok := LoadNames(root, parses, names).Success?;
      assert Loadable(root, parses, names[0]) && (forall n | n in rest :: Loadable(root, parses, n)) ==> ok;
      assert ok ==> Loadable(root, parses, names[0]);
      assert ok ==> (forall n | n in rest :: Loadable(root, parses, n));
      assert forall n :: n in names <==> n == names[0] || n in rest by { HeadOrTail(names); }
    }
  }

  lemma {:induction false} LoadDirMeans(root: map<string, Bundle>, parses: string -> bool)
    ensures LoadDir(root, parses).Success? <==> forall n | n in root :: Loadable(root, parses, n)
    ensures LoadDir(root, parses).Success? ==> forall n :: n in LoadDir(root, parses).value <==> IsAgent(root, n)
  {
    hide Loadable, IsAgent;
    LoadMeans(root, parses, Ordering.Listing(root.Keys));
    if LoadDir(root, parses).Success? {
      forall n
        ensures n in LoadDir(root, parses).value <==> IsAgent(root, n)
      {
        assert IsAgent(root, n) ==> n in root by { AgentsAreThere(root, n); }
      }
    }
  }

  lemma {:induction false} AgentsAreThere(root: map<string, Bundle>, n: string)
    ensures IsAgent(root, n) ==> n in root
  {
  }

  /** The frozen set is in ascending order of slug, so sorting it changes nothing. */
  lemma {:induction false} FrozenInOrder(fs: Layout, ws: string, parses: string -> bool)
    requires LoadDir(fs.root, parses).Success?
    requires forall n | n in LoadDir(fs.root, parses).value :: n in fs.root
    requires Freeze(fs, ws, LoadDir(fs.root, parses).value).Success?
    ensures Ordering.Ascending(Slugs(Freeze(fs, ws, LoadDir(fs.root, parses).value).value))
  {
    var names := Ordering.Listing(fs.root.Keys);
    var legacy := LoadDir(fs.root, parses).value;
    LoadAscends(fs.root, parses, names);
    FreezeMeans(fs, ws, legacy);
    assert Slugs(Freeze(fs, ws, legacy).value) == legacy;
  }

  function Slugs(bundles: seq<Frozen>): (r: seq<string>)
    ensures |r| == |bundles|
  {
    seq(|bundles|, i requires 0 <= i < |bundles| => bundles[i].slug)
  }

  lemma {:induction false} LoadAscends(root: map<string, Bundle>, parses: string -> bool, names: seq<string>)
    requires Ordering.Ascending(names) && forall n | n in names :: n in root
    requires LoadNames(root, parses, names).Success?
    ensures Ordering.Ascending(LoadNames(root, parses, names).value)
    decreases |names|
  {
    if names == [] {
    } else {
      LoadAscends(root, parses, names[1..]);
      LoadedAreThere(root, parses, names[1..]);
      forall n | n in names[1..]
        ensures Ordering.Less(names[0], n)
      {
        var i :| 0 <= i < |names[1..]| && names[1..][i] == n;
        assert names[i + 1] == n;
      }
    }
  }

  predicate Freezable(fs: Layout, ws: string, n: string)
    requires n in fs.root
  {
    ValidSlug(n) && n != "workspaces" && DigestOf(fs.root[n]).Some? && (ws, n) !in fs.homes
  }

  /** The frozen records of a list of slugs, one each, with the digest seen. */
  predicate FrozenFrom(fs: Layout, legacy: seq<string>, bundles: seq<Frozen>) {
    && |bundles| == |legacy|
    && (forall i | 0 <= i < |legacy| ::
          legacy[i] in fs.root && bundles[i] == Frozen(legacy[i], DigestOf(fs.root[legacy[i]])))
  }

  lemma {:induction false} FreezeMeans(fs: Layout, ws: string, legacy: seq<string>)
    requires forall n | n in legacy :: n in fs.root
    ensures Freeze(fs, ws, legacy).Success? <==> forall n | n in legacy :: Freezable(fs, ws, n)
    ensures Freeze(fs, ws, legacy).Success? ==> FrozenFrom(fs, legacy, Freeze(fs, ws, legacy).value)
    decreases |legacy|
  {
    hide ValidSlug, DigestOf;
    if legacy == [] {
    } else {
      var rest := legacy[1..];
      FreezeMeans(fs, ws, rest);
      var ok := Freeze(fs, ws, legacy).Success?;
      assert Freezable(fs, ws, legacy[0]) && (forall n | n in rest :: Freezable(fs, ws, n)) ==> ok;
      assert ok ==> Freezable(fs, ws, legacy[0]);
      assert ok ==> (forall n | n in rest :: Freezable(fs, ws, n));
      assert forall n :: n in legacy <==> n == legacy[0] || n in rest by { HeadOrTail(legacy); }
    }
  }

  // ----- nothing is lost, doubled or overwritten -----

  /** b is a with some root directories moved, unchanged, to free places of one workspace. */
  ghost predicate Relocates(a: Layout, b: Layout, ws: string) {
    && (forall n | n in b.root :: n in a.root && b.root[n] == a.root[n])
    && (forall k | k in a.homes :: k in b.homes && b.homes[k] == a.homes[k])
    && (forall n | n in a.root && n !in b.root ::
          (ws, n) !in a.homes && (ws, n) in b.homes && b.homes[(ws, n)] == a.root[n])
    && (forall k | k in b.homes && k !in a.homes :: k.0 == ws && k.1 in a.root && k.1 !in b.root)
  }

  lemma {:induction false} RelocatesTransitive(a: Layout, b: Layout, c: Layout, ws: string)
    requires Relocates(a, b, ws) && Relocates(b, c, ws)
    ensures Relocates(a, c, ws)
  {
  }

  lemma {:induction false} MoveAllRelocates(fs: Layout, ws: string, bundles: seq<Frozen>, budget: Budget)
    ensures Relocates(fs, MoveAll(fs, ws, bundles, budget).0, ws)
    ensures MoveAll(fs, ws, bundles, budget).0.receipt == fs.receipt
    decreases |bundles|
  {
    if bundles == [] || Obstacle(fs, ws, bundles[0]).Some? {
    } else if bundles[0].slug !in fs.root {
      MoveAllRelocates(fs, ws, bundles[1..], budget);
    } else if !budget.Exhausted() {
      var next := Move(fs, ws, bundles[0].slug);
      assert Relocates(fs, next, ws);
      MoveAllRelocates(next, ws, bundles[1..], budget.Spend());
      RelocatesTransitive(fs, next, MoveAll(next, ws, bundles[1..], budget.Spend()).0, ws);
    }
  }

  /** The workspace a receipt names. */
  function Owner(fs: Layout): string {
    if fs.receipt.Stored? then fs.receipt.receipt.workspaceId else ""
  }

  lemma {:induction false} ResumeRelocates(fs: Layout, ws: string, legacy: seq<string>, parses: string -> bool,
          budget: Budget)
    requires fs.receipt.Stored?
    ensures Relocates(fs, Resume(fs, ws, legacy, parses, budget).0, Owner(fs))
    ensures Resume(fs, ws, legacy, parses, budget).0.receipt.Stored?
    ensures Owner(Resume(fs, ws, legacy, parses, budget).0) == Owner(fs)
  {
    hide Relocates, LoadNames, MoveAll, AllExpected;
    SameRelocates(fs, Owner(fs));
    assert fs.(receipt := fs.receipt) == fs;
    var moved := MoveAll(fs, ws, fs.receipt.receipt.bundles, budget).0;
    MoveAllRelocates(fs, ws, fs.receipt.receipt.bundles, budget);
    ReceiptAside(fs, moved, ws);
  }

  lemma {:induction false} MigrateRelocates(fs: Layout, ws: string, ids: seq<string>, parses: string -> bool,
          budget: Budget)
    ensures Relocates(fs, Migrate(fs, ws, ids, parses, budget).0, Owner(Migrate(fs, ws, ids, parses, budget).0))
    ensures fs.receipt.Stored? ==>
              && Migrate(fs, ws, ids, parses, budget).0.receipt.Stored?
              && Owner(Migrate(fs, ws, ids, parses, budget).0) == Owner(fs)
    ensures !Migrate(fs, ws, ids, parses, budget).0.receipt.Stored? ==> Migrate(fs, ws, ids, parses, budget).0 == fs
  {
    hide Relocates, Freeze, LoadNames, ValidSlug, ReceiptValid, Resume;
    SameRelocates(fs, Owner(fs));
    assert fs.(receipt := fs.receipt) == fs;
    var legacy := LoadDir(fs.root, parses);
    if legacy.Success? {
      LoadedAreThere(fs.root, parses, Ordering.Listing(fs.root.Keys));
      if fs.receipt.Stored? {
        ResumeRelocates(fs, ws, legacy.value, parses, budget);
      } else if Freeze(fs, ws, legacy.value).Success? && !budget.Exhausted() {
        var noted := fs.(receipt := NewReceipt(ws, Freeze(fs, ws, legacy.value).value));
        ResumeRelocates(noted, ws, legacy.value, parses, budget.Spend());
        ReceiptAside(noted, Resume(noted, ws, legacy.value, parses, budget.Spend()).0, ws);
        var r := Resume(noted, ws, legacy.value, parses, budget.Spend()).0;
        assert noted.(receipt := fs.receipt) == fs && r.(receipt := r.receipt) == r;
      }
    }
  }

  lemma {:induction false} SameRelocates(fs: Layout, ws: string)
    ensures forall r :: Relocates(fs, fs.(receipt := r), ws)
  {
  }

  /** Relocation looks at the directories only. */
  lemma {:induction false} ReceiptAside(a: Layout, b: Layout, ws: string)
    ensures Relocates(a, b, ws) ==> forall r, q :: Relocates(a.(receipt := r), b.(receipt := q), ws)
  {
  }

  datatype Call = Call(ws: string, ids: seq<string>, budget: Budget)

  function After(fs: Layout, calls: seq<Call>, parses: string -> bool): Layout
    decreases |calls|
  {
    if calls == [] then fs
    else After(Migrate(fs, calls[0].ws, calls[0].ids, parses, calls[0].budget).0, calls[1..], parses)
  }

  /**
    Whatever calls are made, by whatever workspaces, each cut off at any durable
    step: every directory is still there with its content, in one place only if
    it was in one place only, and nothing that stood in a workspace was replaced.
   */
  lemma {:induction false} NothingLost(fs: Layout, calls: seq<Call>, parses: string -> bool)
    ensures Relocates(fs, After(fs, calls, parses), Owner(After(fs, calls, parses)))
    ensures fs.receipt.Stored? ==>
              After(fs, calls, parses).receipt.Stored? && Owner(After(fs, calls, parses)) == Owner(fs)
    decreases |calls|
  {
    hide Relocates, Migrate;
    if calls == [] {
      SameRelocates(fs, Owner(fs));
      assert fs.(receipt := fs.receipt) == fs;
    } else {
      var c := calls[0];
      var next := Migrate(fs, c.ws, c.ids, parses, c.budget).0;
      MigrateRelocates(fs, c.ws, c.ids, parses, c.budget);
      NothingLost(next, calls[1..], parses);
      if next.receipt.Stored? {
        RelocatesTransitive(fs, next, After(fs, calls, parses), Owner(next));
      }
    }
  }

  /** In particular no directory ever stands in both places because of a call. */
  lemma {:induction false} NoNewOverlap(fs: Layout, calls: seq<Call>, parses: string -> bool, n: string)
    requires n in After(fs, calls, parses).root
    requires (Owner(After(fs, calls, parses)), n) in After(fs, calls, parses).homes
    ensures n in fs.root && (Owner(After(fs, calls, parses)), n) in fs.homes
  {
    NothingLost(fs, calls, parses);
  }

  // ----- when an uninterrupted call completes -----

  predicate DistinctSlugs(bundles: seq<Frozen>) {
    forall i, j | 0 <= i < j < |bundles| :: bundles[i].slug != bundles[j].slug
  }

  predicate Clean(fs: Layout, ws: string, bundles: seq<Frozen>) {
    forall b | b in bundles :: Obstacle(fs, ws, b).None?
  }

  /** Moving one bundle does not get in the way of another. */
  lemma {:induction false} MoveKeepsObstacle(fs: Layout, ws: string, slug: string, b: Frozen)
    requires slug in fs.root && b.slug != slug
    ensures Obstacle(Move(fs, ws, slug), ws, b) == Obstacle(fs, ws, b)
  {
  }

  lemma {:induction false} TailDistinct(bundles: seq<Frozen>)
    requires bundles != [] && DistinctSlugs(bundles)
    ensures DistinctSlugs(bundles[1..])
    ensures forall b | b in bundles[1..] :: b.slug != bundles[0].slug
  {
  }

  /** The loop goes through exactly when no bundle has an obstacle at the start. */
  lemma {:induction false} MoveAllCompletes(fs: Layout, ws: string, bundles: seq<Frozen>)
    requires DistinctSlugs(bundles)
    ensures MoveAll(fs, ws, bundles, Unlimited).2 == Done <==> Clean(fs, ws, bundles)
    ensures MoveAll(fs, ws, bundles, Unlimited).1 == Unlimited
    ensures MoveAll(fs, ws, bundles, Unlimited).2 == Done ==> forall b | b in bundles ::
              b.slug !in MoveAll(fs, ws, bundles, Unlimited).0.root
    decreases |bundles|
  {
    hide Obstacle;
    if bundles == [] {
    } else {
      TailDistinct(bundles);
      assert bundles == [bundles[0]] + bundles[1..];
      if bundles[0].slug in fs.root {
        var next := Move(fs, ws, bundles[0].slug);
        MoveAllCompletes(next, ws, bundles[1..]);
        MoveAllRelocates(next, ws, bundles[1..], Unlimited);
        forall b | b in bundles[1..]
          ensures Obstacle(next, ws, b) == Obstacle(fs, ws, b)
        {
          MoveKeepsObstacle(fs, ws, bundles[0].slug, b);
        }
      } else {
        MoveAllCompletes(fs, ws, bundles[1..]);
        MoveAllRelocates(fs, ws, bundles[1..], Unlimited);
      }
    }
  }

  function AgentNames(root: map<string, Bundle>): set<string> {
    set n | n in root && IsAgent(root, n)
  }

  /** What an operator can check before a call to know that it will go through. */
  predicate Ready(fs: Layout, ws: string, ids: seq<string>, parses: string -> bool) {
    && ValidSlug(ws)
    && (forall n | n in fs.root :: Loadable(fs.root, parses, n))
    && (match fs.receipt
        case Garbled => false
        case Missing =>
          || (forall n | n in fs.root :: !IsAgent(fs.root, n))
          || (&& ids == [ws] && |AgentNames(fs.root)| <= MAX_BUNDLES
              && forall n | n in fs.root && IsAgent(fs.root, n) :: Freezable(fs, ws, n))
        case Stored(r) =>
          && ReceiptValid(r)
          && if r.state == Complete then forall n | n in fs.root :: !IsAgent(fs.root, n)
             else
               && ids == [ws] && r.workspaceId == ws
               && (forall n | n in fs.root && IsAgent(fs.root, n) :: exists b :: b in r.bundles && b.slug == n)
               && Clean(fs, ws, r.bundles))
  }

  /** The frozen set of a fresh start is distinct, unobstructed, and covers every Agent. */
  lemma {:induction false} FreshStart(fs: Layout, ws: string, parses: string -> bool)
    requires LoadDir(fs.root, parses).Success?
    requires forall n | n in LoadDir(fs.root, parses).value :: n in fs.root && Freezable(fs, ws, n)
    ensures Freeze(fs, ws, LoadDir(fs.root, parses).value).Success?
    ensures DistinctSlugs(Freeze(fs, ws, LoadDir(fs.root, parses).value).value)
    ensures Clean(fs, ws, Freeze(fs, ws, LoadDir(fs.root, parses).value).value)
    ensures AllExpected(LoadDir(fs.root, parses).value, Freeze(fs, ws, LoadDir(fs.root, parses).value).value)
  {
    hide LoadNames, ValidSlug, DigestOf;
    var legacy := LoadDir(fs.root, parses).value;
    LoadAscends(fs.root, parses, Ordering.Listing(fs.root.Keys));
    Ordering.AscendingDistinct(legacy);
    FreezeMeans(fs, ws, legacy);
    var bundles := Freeze(fs, ws, legacy).value;
    forall n | n in legacy
      ensures exists b :: b in bundles && b.slug == n
    {
      var i :| 0 <= i < |legacy| && legacy[i] == n;
      assert bundles[i] in bundles;
    }
  }

  /** Once every expected directory has moved, no Agent is left in the root. */
  lemma {:induction false} NothingRemains(fs: Layout, moved: Layout, ws: string, bundles: seq<Frozen>,
          parses: string -> bool)
    requires LoadDir(fs.root, parses).Success? && AllExpected(LoadDir(fs.root, parses).value, bundles)
    requires Relocates(fs, moved, ws) && forall b | b in bundles :: b.slug !in moved.root
    ensures LoadDir(moved.root, parses) == Success([])
  {
    hide LoadNames;
    LoadDirMeans(fs.root, parses);
    LoadDirMeans(moved.root, parses);
    var remaining := LoadDir(moved.root, parses).value;
    forall n
      ensures n !in remaining
    {
      assert IsAgent(moved.root, n) ==> IsAgent(fs.root, n);
    }
    HeadIn(remaining);
  }

  /** A resumed call goes through exactly when nothing obstructs a frozen bundle. */
  lemma {:induction false} ResumeCompletes(fs: Layout, ws: string, parses: string -> bool)
    requires fs.receipt.Stored? && fs.receipt.receipt.workspaceId == ws && DistinctSlugs(fs.receipt.receipt.bundles)
    requires LoadDir(fs.root, parses).Success?
    requires AllExpected(LoadDir(fs.root, parses).value, fs.receipt.receipt.bundles)
    ensures Resume(fs, ws, LoadDir(fs.root, parses).value, parses, Unlimited).1 == Done
            <==> Clean(fs, ws, fs.receipt.receipt.bundles)
  {
    hide LoadNames, Clean, AllExpected;
    var bundles := fs.receipt.receipt.bundles;
    var moved := MoveAll(fs, ws, bundles, Unlimited).0;
    MoveAllCompletes(fs, ws, bundles);
    MoveAllRelocates(fs, ws, bundles, Unlimited);
    if Clean(fs, ws, bundles) { NothingRemains(fs, moved, ws, bundles, parses); }
  }

  lemma {:induction false} LegacyMeans(fs: Layout, parses: string -> bool)
    requires LoadDir(fs.root, parses).Success?
    ensures |LoadDir(fs.root, parses).value| == |AgentNames(fs.root)|
    ensures LoadDir(fs.root, parses).value == [] <==> forall n | n in fs.root :: !IsAgent(fs.root, n)
    ensures forall n :: n in LoadDir(fs.root, parses).value <==> n in fs.root && IsAgent(fs.root, n)
  {
    hide LoadNames;
    var legacy := LoadDir(fs.root, parses).value;
    LoadDirMeans(fs.root, parses);
    LoadAscends(fs.root, parses, Ordering.Listing(fs.root.Keys));
    Ordering.AscendingLength(legacy, AgentNames(fs.root));
    if legacy != [] { assert IsAgent(fs.root, legacy[0]); }
  }

  /** An uninterrupted call succeeds exactly when the layout is ready for it. */
  lemma {:induction false} CompletesExactlyWhenReady(fs: Layout, ws: string, ids: seq<string>, parses: string -> bool)
    ensures Migrate(fs, ws, ids, parses, Unlimited).1 == Done <==> Ready(fs, ws, ids, parses)
  {
    hide LoadNames, ValidSlug, DigestOf, Clean, Freeze, Resume, IsAgent, Loadable;
    LoadDirMeans(fs.root, parses);
    if LoadDir(fs.root, parses).Success? {
      LegacyMeans(fs, parses);
      var legacy := LoadDir(fs.root, parses).value;
      if fs.receipt.Stored? && ReceiptValid(fs.receipt.receipt) && fs.receipt.receipt.state == Pending {
        PendingCompletes(fs, ws, parses);
      } else if fs.receipt.Missing? && legacy != [] {
        FreezeMeans(fs, ws, legacy);
        if Freeze(fs, ws, legacy).Success? { FreshCompletes(fs, ws, parses); }
      }
    }
  }

  lemma {:induction false} PendingCompletes(fs: Layout, ws: string, parses: string -> bool)
    requires fs.receipt.Stored? && ReceiptValid(fs.receipt.receipt) && LoadDir(fs.root, parses).Success?
    ensures Resume(fs, ws, LoadDir(fs.root, parses).value, parses, Unlimited).1 == Done <==>
              && fs.receipt.receipt.workspaceId == ws
              && AllExpected(LoadDir(fs.root, parses).value, fs.receipt.receipt.bundles)
              && Clean(fs, ws, fs.receipt.receipt.bundles)
  {
    hide LoadNames, Clean, MoveAll;
    if fs.receipt.receipt.workspaceId == ws && AllExpected(LoadDir(fs.root, parses).value, fs.receipt.receipt.bundles) {
      ResumeCompletes(fs, ws, parses);
    }
  }

  lemma {:induction false} FreshCompletes(fs: Layout, ws: string, parses: string -> bool)
    requires LoadDir(fs.root, parses).Success?
    requires forall n | n in LoadDir(fs.root, parses).value :: n in fs.root && Freezable(fs, ws, n)
    ensures Freeze(fs, ws, LoadDir(fs.root, parses).value).Success?
    ensures Resume(fs.(receipt := NewReceipt(ws, Freeze(fs, ws, LoadDir(fs.root, parses).value).value)), ws,
                   LoadDir(fs.root, parses).value, parses, Unlimited).1 == Done
  {
    hide LoadNames, Resume, MoveAll, AllExpected, DistinctSlugs, Freezable, Freeze;
    FreshStart(fs, ws, parses);
    var noted := fs.(receipt := NewReceipt(ws, Freeze(fs, ws, LoadDir(fs.root, parses).value).value));
    assert Clean(noted, ws, noted.receipt.receipt.bundles);
    ResumeCompletes(noted, ws, parses);
  }

  // ----- interrupted calls -----

  /** What is left to do after a cut is the same work. */
  lemma {:induction false} CutMoves(fs: Layout, ws: string, bundles: seq<Frozen>, budget: Budget)
    requires DistinctSlugs(bundles) && Clean(fs, ws, bundles)
    ensures MoveAll(fs, ws, bundles, budget).2 == Done || MoveAll(fs, ws, bundles, budget).2 == Crashed
    ensures Clean(MoveAll(fs, ws, bundles, budget).0, ws, bundles)
    ensures MoveAll(MoveAll(fs, ws, bundles, budget).0, ws, bundles, Unlimited).0
              == MoveAll(fs, ws, bundles, Unlimited).0
    ensures MoveAll(fs, ws, bundles, budget).2 == Done ==>
              MoveAll(fs, ws, bundles, budget).0 == MoveAll(fs, ws, bundles, Unlimited).0
    decreases |bundles|
  {
    if bundles == [] {
    } else {
      HeadOrTail(bundles);
      TailDistinct(bundles);
      var head, rest := bundles[0], bundles[1..];
      if head.slug !in fs.root {
        CutMoves(fs, ws, rest, budget);
        HeadStays(fs, ws, head, rest, budget);
      } else if !budget.Exhausted() {
        var next := Move(fs, ws, head.slug);
        assert Obstacle(next, ws, head).None?;
        forall b | b in rest
          ensures Obstacle(next, ws, b).None?
        {
          MoveKeepsObstacle(fs, ws, head.slug, b);
        }
        CutMoves(next, ws, rest, budget.Spend());
        HeadStays(next, ws, head, rest, budget.Spend());
      }
    }
  }

  /** A bundle that has arrived is not looked at again. */
  lemma {:induction false} HeadStays(fs: Layout, ws: string, head: Frozen, rest: seq<Frozen>, budget: Budget)
    requires head.slug !in fs.root && Obstacle(fs, ws, head).None?
    ensures Obstacle(MoveAll(fs, ws, rest, budget).0, ws, head).None?
    ensures head.slug !in MoveAll(fs, ws, rest, budget).0.root
  {
    MoveAllRelocates(fs, ws, rest, budget);
  }

  /** A cut leaves fewer directories in the root, so it can still be listed. */
  lemma {:induction false} StillLoads(fs: Layout, cut: Layout, ws: string, bundles: seq<Frozen>, parses: string -> bool)
    requires LoadDir(fs.root, parses).Success? && AllExpected(LoadDir(fs.root, parses).value, bundles)
    requires Relocates(fs, cut, ws)
    ensures LoadDir(cut.root, parses).Success? && AllExpected(LoadDir(cut.root, parses).value, bundles)
  {
    hide LoadNames;
    LoadDirMeans(fs.root, parses);
    LoadDirMeans(cut.root, parses);
    forall n | n in LoadDir(cut.root, parses).value
      ensures n in LoadDir(fs.root, parses).value
    {
      assert IsAgent(cut.root, n) && IsAgent(fs.root, n);
    }
  }

  /** A pending receipt of this workspace that an uninterrupted call can finish. */
  predicate Resumable(fs: Layout, ws: string, parses: string -> bool) {
    && ValidSlug(ws)
    && fs.receipt.Stored? && ReceiptValid(fs.receipt.receipt)
    && fs.receipt.receipt.state == Pending && fs.receipt.receipt.workspaceId == ws
    && Clean(fs, ws, fs.receipt.receipt.bundles)
    && LoadDir(fs.root, parses).Success?
    && AllExpected(LoadDir(fs.root, parses).value, fs.receipt.receipt.bundles)
  }

  /** The layout a resumable migration ends in. */
  function Finished(fs: Layout, ws: string): Layout
    requires fs.receipt.Stored?
  {
    MoveAll(fs, ws, fs.receipt.receipt.bundles, Unlimited).0.(
      receipt := Stored(fs.receipt.receipt.(state := Complete)))
  }

  lemma {:induction false} ValidIsDistinct(r: Receipt)
    requires ReceiptValid(r)
    ensures DistinctSlugs(r.bundles)
  {
  }

  /** A cut resumption either finishes or can be resumed towards the same end. */
  lemma {:induction false} CutResume(fs: Layout, ws: string, parses: string -> bool, budget: Budget)
    requires Resumable(fs, ws, parses)
    ensures Resume(fs, ws, LoadDir(fs.root, parses).value, parses, budget) == (Finished(fs, ws), Done) ||
            (&& budget.Steps?
             && Resume(fs, ws, LoadDir(fs.root, parses).value, parses, budget).1 == Crashed
             && Resumable(Resume(fs, ws, LoadDir(fs.root, parses).value, parses, budget).0, ws, parses)
             && Finished(Resume(fs, ws, LoadDir(fs.root, parses).value, parses, budget).0, ws) == Finished(fs, ws))
  {
    hide LoadNames, Clean, AllExpected, ReceiptValid, Obstacle, ValidSlug;
    var bundles := fs.receipt.receipt.bundles;
    ValidIsDistinct(fs.receipt.receipt);
    CutMoves(fs, ws, bundles, budget);
    MoveAllRelocates(fs, ws, bundles, budget);
    UnlimitedNeverCrashes(fs, ws, bundles);
    var cut := MoveAll(fs, ws, bundles, budget).0;
    StillLoads(fs, cut, ws, bundles, parses);
    MoveAllCompletes(fs, ws, bundles);
    var outcome := MoveAll(fs, ws, bundles, budget).2;
    if outcome == Done {
      NothingRemains(fs, cut, ws, bundles, parses);
    }
  }

  lemma {:induction false} UnlimitedNeverCrashes(fs: Layout, ws: string, bundles: seq<Frozen>)
    ensures MoveAll(fs, ws, bundles, Unlimited).2 != Crashed && MoveAll(fs, ws, bundles, Unlimited).1 == Unlimited
    decreases |bundles|
  {
    if bundles == [] || Obstacle(fs, ws, bundles[0]).Some? {
    } else if bundles[0].slug !in fs.root {
      UnlimitedNeverCrashes(fs, ws, bundles[1..]);
    } else {
      UnlimitedNeverCrashes(Move(fs, ws, bundles[0].slug), ws, bundles[1..]);
    }
  }

  /** Where one interrupted call of a migration that could have finished leaves it. */
  lemma {:induction false} CutMigrate(fs: Layout, ws: string, parses: string -> bool, budget: Budget)
    requires Migrate(fs, ws, [ws], parses, Unlimited).1 == Done
    ensures Migrate(Migrate(fs, ws, [ws], parses, budget).0, ws, [ws], parses, Unlimited)
            == Migrate(fs, ws, [ws], parses, Unlimited)
  {
    hide LoadNames, Freeze, Resume, Clean, AllExpected, Ready, ValidSlug;
    var legacy := LoadDir(fs.root, parses).value;
    LoadedAreThere(fs.root, parses, Ordering.Listing(fs.root.Keys));
    if fs.receipt.Stored? && fs.receipt.receipt.state == Pending {
      PendingIsResumable(fs, ws, parses);
      ResumeTwice(fs, ws, parses, budget);
    } else if fs.receipt.Missing? && legacy != [] && !budget.Exhausted() {
      var noted := fs.(receipt := NewReceipt(ws, Freeze(fs, ws, legacy).value));
      NotedIsResumable(fs, ws, parses);
      ResumeTwice(noted, ws, parses, budget.Spend());
    }
  }

  lemma {:induction false} PendingIsResumable(fs: Layout, ws: string, parses: string -> bool)
    requires fs.receipt.Stored? && fs.receipt.receipt.state == Pending
    requires Migrate(fs, ws, [ws], parses, Unlimited).1 == Done
    ensures Resumable(fs, ws, parses)
  {
    hide LoadNames, Clean, AllExpected;
    LoadedAreThere(fs.root, parses, Ordering.Listing(fs.root.Keys));
    PendingCompletes(fs, ws, parses);
  }

  lemma {:induction false} NotedIsResumable(fs: Layout, ws: string, parses: string -> bool)
    requires fs.receipt.Missing? && LoadDir(fs.root, parses).Success? && LoadDir(fs.root, parses).value != []
    requires Migrate(fs, ws, [ws], parses, Unlimited).1 == Done
    ensures forall n | n in LoadDir(fs.root, parses).value :: n in fs.root
    ensures Freeze(fs, ws, LoadDir(fs.root, parses).value).Success?
    ensures Resumable(fs.(receipt := NewReceipt(ws, Freeze(fs, ws, LoadDir(fs.root, parses).value).value)), ws, parses)
  {
    hide LoadNames, AllExpected, Resume, ValidSlug, DigestOf, Freeze;
    var legacy := LoadDir(fs.root, parses).value;
    LoadedAreThere(fs.root, parses, Ordering.Listing(fs.root.Keys));
    FreezeMeans(fs, ws, legacy);
    FreshStart(fs, ws, parses);
    var noted := fs.(receipt := NewReceipt(ws, Freeze(fs, ws, legacy).value));
    assert Clean(noted, ws, noted.receipt.receipt.bundles);
  }

  /** Resuming a cut resumption, through the entry checks of a new call. */
  lemma {:induction false} ResumeTwice(fs: Layout, ws: string, parses: string -> bool, budget: Budget)
    requires Resumable(fs, ws, parses)
    ensures Migrate(Resume(fs, ws, LoadDir(fs.root, parses).value, parses, budget).0, ws, [ws], parses, Unlimited)
            == (Finished(fs, ws), Done)
    ensures Resume(fs, ws, LoadDir(fs.root, parses).value, parses, Unlimited) == (Finished(fs, ws), Done)
  {
    hide LoadNames, Resume, Clean, AllExpected, MoveAll;
    CutResume(fs, ws, parses, budget);
    CutResume(fs, ws, parses, Unlimited);
    var cut := Resume(fs, ws, LoadDir(fs.root, parses).value, parses, budget).0;
    if cut == Finished(fs, ws) {
      FinishedIsQuiet(fs, ws, parses);
    } else {
      LoadedAreThere(cut.root, parses, Ordering.Listing(cut.root.Keys));
      CutResume(cut, ws, parses, Unlimited);
    }
  }

  lemma {:induction false} FinishedIsQuiet(fs: Layout, ws: string, parses: string -> bool)
    requires Resumable(fs, ws, parses)
    ensures Finished(fs, ws).receipt.Stored? && ReceiptValid(Finished(fs, ws).receipt.receipt)
    ensures LoadDir(Finished(fs, ws).root, parses) == Success([])
  {
    hide LoadNames, Clean, AllExpected, Obstacle;
    var bundles := fs.receipt.receipt.bundles;
    ValidIsDistinct(fs.receipt.receipt);
    MoveAllCompletes(fs, ws, bundles);
    MoveAllRelocates(fs, ws, bundles, Unlimited);
    NothingRemains(fs, MoveAll(fs, ws, bundles, Unlimited).0, ws, bundles, parses);
  }

  function Cuts(ws: string, budgets: seq<Budget>): seq<Call> {
    seq(|budgets|, i requires 0 <= i < |budgets| => Call(ws, [ws], budgets[i]))
  }

  /**
    Crashes are invisible: any number of calls cut at any durable step, then one
    that is not, end exactly where one undisturbed call would have ended.
   */
  lemma {:induction false} CrashesAreInvisible(fs: Layout, ws: string, parses: string -> bool, budgets: seq<Budget>)
    requires Migrate(fs, ws, [ws], parses, Unlimited).1 == Done
    ensures Migrate(After(fs, Cuts(ws, budgets), parses), ws, [ws], parses, Unlimited)
            == Migrate(fs, ws, [ws], parses, Unlimited)
    decreases |budgets|
  {
    hide Migrate;
    if budgets == [] {
    } else {
      CutMigrate(fs, ws, parses, budgets[0]);
      CrashesAreInvisible(Migrate(fs, ws, [ws], parses, budgets[0]).0, ws, parses, budgets[1..]);
      assert Cuts(ws, budgets)[1..] == Cuts(ws, budgets[1..]);
    }
  }

  lemma {:induction false} FinishedHolds(fs: Layout, ws: string, parses: string -> bool, n: string)
    requires Resumable(fs, ws, parses)
    ensures forall b | b in fs.receipt.receipt.bundles ::
              && b.slug !in Finished(fs, ws).root && (ws, b.slug) in Finished(fs, ws).homes
              && DigestOf(Finished(fs, ws).homes[(ws, b.slug)]) == b.digest
    ensures IsAgent(fs.root, n) ==>
              && n !in Finished(fs, ws).root && (ws, n) in Finished(fs, ws).homes
              && Finished(fs, ws).homes[(ws, n)] == fs.root[n]
  {
    hide LoadNames, Loadable;
    var bundles := fs.receipt.receipt.bundles;
    ValidIsDistinct(fs.receipt.receipt);
    CutMoves(fs, ws, bundles, Unlimited);
    MoveAllCompletes(fs, ws, bundles);
    MoveAllRelocates(fs, ws, bundles, Unlimited);
    LoadDirMeans(fs.root, parses);
    hide IsAgent;
    forall b | b in bundles
      ensures Obstacle(Finished(fs, ws), ws, b).None?
    {
      assert Obstacle(MoveAll(fs, ws, bundles, Unlimited).0, ws, b).None?;
    }
  }

  /** The directories the layout's own receipt froze are in their place. */
  predicate InPlace(fs: Layout, ws: string) {
    fs.receipt.Stored? ==>
      forall b | b in fs.receipt.receipt.bundles ::
        b.slug !in fs.root && (ws, b.slug) in fs.homes && DigestOf(fs.homes[(ws, b.slug)]) == b.digest
  }

  /**
    A call that goes through, started fresh or resumed, has put every Agent of the
    root in its home with its content unchanged, and is final: no later call, by
    whom and however cut, changes anything.
   */
  lemma {:induction false} CompletionIsFinal(fs: Layout, ws: string, ids: seq<string>, parses: string -> bool,
                                             calls: seq<Call>, n: string)
    requires Migrate(fs, ws, ids, parses, Unlimited).1 == Done
    ensures After(Migrate(fs, ws, ids, parses, Unlimited).0, calls, parses) == Migrate(fs, ws, ids, parses, Unlimited).0
    ensures n in fs.root && IsAgent(fs.root, n) ==>
              && n !in Migrate(fs, ws, ids, parses, Unlimited).0.root
              && (ws, n) in Migrate(fs, ws, ids, parses, Unlimited).0.homes
              && Migrate(fs, ws, ids, parses, Unlimited).0.homes[(ws, n)] == fs.root[n]
    ensures Migrate(fs, ws, ids, parses, Unlimited).0 != fs ==> InPlace(Migrate(fs, ws, ids, parses, Unlimited).0, ws)
  {
    hide LoadNames, Freeze, Resume, Resumable, Clean, AllExpected, IsAgent, Finished, ValidSlug, DigestOf;
    var legacy := LoadDir(fs.root, parses).value;
    LegacyMeans(fs, parses);
    LoadedAreThere(fs.root, parses, Ordering.Listing(fs.root.Keys));
    if fs.receipt.Stored? && fs.receipt.receipt.state == Pending {
      PendingIsResumable(fs, ws, parses);
      ResumptionIsFinal(fs, ws, parses, calls, n);
    } else if fs.receipt.Missing? && legacy != [] {
      NotedIsResumable(fs, ws, parses);
      ResumptionIsFinal(fs.(receipt := NewReceipt(ws, Freeze(fs, ws, legacy).value)), ws, parses, calls, n);
    } else if fs.receipt.Stored? {
      CompleteIsQuiet(fs, calls, parses);
    } else {
      NothingToDoIsQuiet(fs, calls, parses);
    }
  }

  lemma {:induction false} ResumptionIsFinal(fs: Layout, ws: string, parses: string -> bool, calls: seq<Call>,
          n: string)
    requires Resumable(fs, ws, parses)
    ensures Resume(fs, ws, LoadDir(fs.root, parses).value, parses, Unlimited) == (Finished(fs, ws), Done)
    ensures After(Finished(fs, ws), calls, parses) == Finished(fs, ws) && InPlace(Finished(fs, ws), ws)
    ensures IsAgent(fs.root, n) ==>
              && n !in Finished(fs, ws).root && (ws, n) in Finished(fs, ws).homes
              && Finished(fs, ws).homes[(ws, n)] == fs.root[n]
  {
    FinishedHolds(fs, ws, parses, n);
    FinishedIsQuiet(fs, ws, parses);
    ResumeTwice(fs, ws, parses, Unlimited);
    CompleteIsQuiet(Finished(fs, ws), calls, parses);
    hide LoadNames, Clean, AllExpected, Resume, MoveAll, Migrate, IsAgent, ReceiptValid;
  }

  lemma {:induction false} NothingToDoIsQuiet(fs: Layout, calls: seq<Call>, parses: string -> bool)
    requires fs.receipt.Missing? && LoadDir(fs.root, parses) == Success([])
    ensures After(fs, calls, parses) == fs
    decreases |calls|
  {
    hide LoadNames;
    if calls != [] { NothingToDoIsQuiet(fs, calls[1..], parses); }
  }

  lemma {:induction false} CompleteIsQuiet(fs: Layout, calls: seq<Call>, parses: string -> bool)
    requires fs.receipt.Stored? && ReceiptValid(fs.receipt.receipt) && fs.receipt.receipt.state == Complete
    ensures After(fs, calls, parses) == fs
    decreases |calls|
  {
    hide LoadNames, ReceiptValid;
    if calls == [] {
    } else {
      CompleteIsQuiet(fs, calls[1..], parses);
    }
  }
}
