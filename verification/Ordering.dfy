/** The byte-wise order of strings, and the ascending listing of a finite set of them. */
module Ordering {

  predicate Less(a: string, b: string) {
    b != [] && (a == [] || a[0] < b[0] || (a[0] == b[0] && Less(a[1..], b[1..])))
  }

  predicate Ascending(names: seq<string>) {
    forall i, j | 0 <= i < j < |names| :: Less(names[i], names[j])
  }

  lemma {:induction false} Transitive(a: string, b: string, c: string)
    requires Less(a, b) && Less(b, c)
    ensures Less(a, c)
  {
    if a != [] && a[0] == b[0] && b[0] == c[0] { Transitive(a[1..], b[1..], c[1..]); }
  }

  lemma {:induction false} Total(a: string, b: string)
    ensures Less(a, b) || a == b || Less(b, a)
  {
    if a != [] && b != [] && a[0] == b[0] {
      Total(a[1..], b[1..]);
      assert a == [a[0]] + a[1..] && b == [b[0]] + b[1..];
    }
  }

  lemma {:induction false} Irreflexive(a: string)
    ensures !Less(a, a)
  {
    if a != [] { Irreflexive(a[1..]); }
  }

  predicate IsLeast(a: string, names: set<string>) {
    a in names && forall b | b in names :: a == b || Less(a, b)
  }

  lemma {:induction false} LeastExists(names: set<string>)
    requires names != {}
    ensures exists a :: IsLeast(a, names)
  {
    var x :| x in names;
    if names == {x} {
      assert IsLeast(x, names);
    } else {
      LeastExists(names - {x});
      var y :| IsLeast(y, names - {x});
      Total(x, y);
      if Less(x, y) {
        forall b | b in names
          ensures x == b || Less(x, b)
        {
          if b != x && b != y { Transitive(x, y, b); }
        }
        assert IsLeast(x, names);
      } else {
        assert IsLeast(y, names);
      }
    }
  }

  lemma {:induction false} LeastUnique(a: string, b: string, names: set<string>)
    requires IsLeast(a, names) && IsLeast(b, names)
    ensures a == b
  {
    if a != b {
      Transitive(a, b, a);
      Irreflexive(a);
    }
  }

  function Least(names: set<string>): (a: string)
    requires names != {}
    ensures IsLeast(a, names)
  {
    LeastExists(names);
    assert forall a, b | IsLeast(a, names) && IsLeast(b, names) :: a == b by {
      forall a, b | IsLeast(a, names) && IsLeast(b, names)
        ensures a == b
      {
        LeastUnique(a, b, names);
      }
    }
    var a :| IsLeast(a, names);
    a
  }

  /** The ascending listing of a set, each name once. */
  function Listing(names: set<string>): (r: seq<string>)
    ensures Ascending(r) && forall n :: n in r <==> n in names
    decreases |names|
  {
    if names == {} then []
    else
      var a := Least(names);
      var rest := Listing(names - {a});
      assert forall i | 0 <= i < |rest| :: rest[i] in names - {a};
      [a] + rest
  }

  /** There is only one ascending listing. */
  lemma {:induction false} ListingUnique(r: seq<string>, names: set<string>)
    requires Ascending(r) && forall n :: n in r <==> n in names
    ensures r == Listing(names)
  {
    if r == [] {
      assert forall n :: n in names ==> n in r;
      assert names == {};
    } else {
      assert r[0] in names;
      var a := Least(names);
      forall b | b in names
        ensures r[0] == b || Less(r[0], b)
      {
        var i :| 0 <= i < |r| && r[i] == b;
      }
      LeastUnique(a, r[0], names);
      forall n
        ensures n in r[1..] <==> n in names - {a}
      {
        if n in r[1..] {
          var i :| 0 <= i < |r[1..]| && r[1..][i] == n;
          assert Less(r[0], r[i + 1]);
          Irreflexive(a);
        }
      }
      ListingUnique(r[1..], names - {a});
    }
  }

  lemma {:induction false} AscendingDistinct(names: seq<string>)
    requires Ascending(names)
    ensures forall i, j | 0 <= i < j < |names| :: names[i] != names[j]
  {
    forall i, j | 0 <= i < j < |names|
      ensures names[i] != names[j]
    {
      Irreflexive(names[i]);
    }
  }

  /** An ascending listing is as long as the set it lists. */
  lemma {:induction false} AscendingLength(names: seq<string>, all: set<string>)
    requires Ascending(names) && forall n :: n in names <==> n in all
    ensures |names| == |all|
    decreases |all|
  {
    ListingUnique(names, all);
    if names == [] {
      assert forall n :: n in all ==> n in names;
      assert all == {};
    } else {
      var a := Least(all);
      var rest := Listing(all - {a});
      AscendingLength(rest, all - {a});
    }
  }
}
