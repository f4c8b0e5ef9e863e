/**
The order in which slices.Sort puts strings, and the one sorted listing of a set of keys.
*/
module Ordering {

  predicate Less(a: string, b: string) {
    b != "" && (a == "" || a[0] < b[0] || (a[0] == b[0] && Less(a[1..], b[1..])))
  }

  /** The two agree before position `k`, where `a` has the smaller character. */
  predicate SmallerAt(a: string, b: string, k: nat) {
    k < |a| && k < |b| && (forall i :: 0 <= i < k ==> a[i] == b[i]) && a[k] < b[k]
  }

  /** A string comes before its continuations, and otherwise the first difference decides. */
  lemma {:induction false} LessMeaning(a: string, b: string)
    ensures Less(a, b) <==> a < b || exists k :: SmallerAt(a, b, k)
  {
    if a != "" && b != "" {
      if a[0] == b[0] {
        LessMeaning(a[1..], b[1..]);
        assert a[1..] < b[1..] <==> a < b;
        SmallerShifts(a, b);
      } else {
        assert a[0] < b[0] ==> SmallerAt(a, b, 0);
      }
    }
  }

  lemma SmallerShifts(a: string, b: string)
    requires a != "" && b != "" && a[0] == b[0]
    ensures (exists k :: SmallerAt(a[1..], b[1..], k)) <==> exists k :: SmallerAt(a, b, k)
  {
    if k: nat :| SmallerAt(a, b, k) {
      assert k > 0 ==> SmallerAt(a[1..], b[1..], k - 1);
    }
    if k: nat :| SmallerAt(a[1..], b[1..], k) {
      assert forall i :: 0 < i <= k ==> a[1..][i - 1] == a[i] && b[1..][i - 1] == b[i];
      assert SmallerAt(a, b, k + 1);
    }
  }

  lemma {:induction false} LessIrreflexive(a: string)
    ensures !Less(a, a)
  {
    if a != "" { LessIrreflexive(a[1..]); }
  }

  lemma {:induction false} LessTransitive(a: string, b: string, c: string)
    requires Less(a, b) && Less(b, c)
    ensures Less(a, c)
  {
    if a != "" && a[0] == b[0] == c[0] { LessTransitive(a[1..], b[1..], c[1..]); }
  }

  lemma {:induction false} LessTotal(a: string, b: string)
    ensures Less(a, b) || a == b || Less(b, a)
  {
    if a != "" && b != "" && a[0] == b[0] {
      LessTotal(a[1..], b[1..]);
      assert a == [a[0]] + a[1..] && b == [b[0]] + b[1..];
    }
  }

  predicate Sorted(xs: seq<string>) {
    forall i, j :: 0 <= i < j < |xs| ==> Less(xs[i], xs[j])
  }

  ghost predicate IsListing(xs: seq<string>, keys: set<string>) {
    && Sorted(xs)
    && forall x :: x in xs <==> x in keys
  }

  lemma {:induction false} ListingUnique(xs: seq<string>, ys: seq<string>, keys: set<string>)
    requires IsListing(xs, keys) && IsListing(ys, keys)
    ensures xs == ys
    decreases |xs|
  {
    EmptyListing(xs, keys);
    EmptyListing(ys, keys);
    if xs != [] {
      FirstAgrees(xs, ys, keys);
      TailLists(xs, keys);
      TailLists(ys, keys);
      ListingUnique(xs[1..], ys[1..], keys - {xs[0]});
      assert xs == [xs[0]] + xs[1..] && ys == [ys[0]] + ys[1..];
    }
  }

  lemma EmptyListing(xs: seq<string>, keys: set<string>)
    requires IsListing(xs, keys)
    ensures xs == [] <==> keys == {}
  {
    if xs != [] {
      assert xs[0] in keys;
    } else {
      assert forall x :: x in keys ==> x in xs;
    }
  }

  lemma FirstAgrees(xs: seq<string>, ys: seq<string>, keys: set<string>)
    requires xs != [] && ys != [] && IsListing(xs, keys) && IsListing(ys, keys)
    ensures xs[0] == ys[0]
  {
    if xs[0] != ys[0] {
      assert xs[0] in keys && ys[0] in keys;
      assert Less(ys[0], xs[0]) && Less(xs[0], ys[0]);
      LessTransitive(xs[0], ys[0], xs[0]);
      LessIrreflexive(xs[0]);
    }
  }

  lemma TailLists(xs: seq<string>, keys: set<string>)
    requires xs != [] && IsListing(xs, keys)
    ensures IsListing(xs[1..], keys - {xs[0]})
  {
    LessIrreflexive(xs[0]);
    forall x ensures x in xs[1..] <==> x in keys - {xs[0]} {
      if x in xs[1..] {
        assert x in xs;
      }
      if x in keys && x != xs[0] {
        assert x in xs;
      }
    }
  }

  function Insert(x: string, xs: seq<string>): (r: seq<string>)
    ensures |r| == |xs| + 1
    ensures forall y :: y in r <==> y == x || y in xs
  {
    if xs == [] || Less(x, xs[0]) then [x] + xs
    else
      assert forall y :: y in xs <==> y == xs[0] || y in xs[1..];
      [xs[0]] + Insert(x, xs[1..])
  }

  lemma {:induction false} InsertKeepsSorted(x: string, xs: seq<string>)
    requires Sorted(xs) && x !in xs
    ensures Sorted(Insert(x, xs))
  {
    if xs == [] {
    } else if Less(x, xs[0]) {
      forall i | 0 <= i < |xs| ensures Less(x, xs[i]) {
        if i > 0 { LessTransitive(x, xs[0], xs[i]); }
      }
    } else {
      InsertKeepsSorted(x, xs[1..]);
      LessTotal(x, xs[0]);
      var r := Insert(x, xs[1..]);
      forall i | 0 <= i < |r| ensures Less(xs[0], r[i]) {
        assert r[i] in r;
      }
    }
  }

  function Sort(xs: seq<string>): (r: seq<string>)
    ensures forall y :: y in r <==> y in xs
  {
    if xs == [] then [] else
      assert xs == xs[..|xs| - 1] + [xs[|xs| - 1]];
      Insert(xs[|xs| - 1], Sort(xs[..|xs| - 1]))
  }

  predicate Distinct(xs: seq<string>) {
    forall i, j :: 0 <= i < j < |xs| ==> xs[i] != xs[j]
  }

  lemma {:induction false} SortSorts(xs: seq<string>)
    requires Distinct(xs)
    ensures Sorted(Sort(xs))
  {
    if xs != [] {
      var n := |xs| - 1;
      SortSorts(xs[..n]);
      InsertKeepsSorted(xs[n], Sort(xs[..n]));
    }
  }

  lemma {:induction false} ListingExists(keys: set<string>)
    ensures exists xs :: IsListing(xs, keys)
  {
    if keys == {} {
      assert IsListing([], keys);
    } else {
      var k :| k in keys;
      ListingExists(keys - {k});
      var xs :| IsListing(xs, keys - {k});
      InsertKeepsSorted(k, xs);
      assert IsListing(Insert(k, xs), keys);
    }
  }

  ghost function SortedKeys(keys: set<string>): (xs: seq<string>)
    ensures IsListing(xs, keys)
  {
    ListingExists(keys);
    var xs :| IsListing(xs, keys);
    xs
  }

  /** Collect the keys of a map in whatever order they come and sort them: always the same list. */
  method CollectAndSort(keys: set<string>) returns (sorted: seq<string>)
    ensures sorted == SortedKeys(keys)
  {
    var rest, collected := keys, [];
    while rest != {}
      invariant rest <= keys && Distinct(collected)
      invariant forall x :: x in collected <==> x in keys && x !in rest
      decreases |rest|
    {
      var key :| key in rest;
      collected := collected + [key];
      rest := rest - {key};
    }
    sorted := Sort(collected);
    SortSorts(collected);
    ListingUnique(sorted, SortedKeys(keys), keys);
  }
}
