/** The order of `String` keys, under which `BTreeMap` iterates and the loader sorts. */
module Order {
  predicate Less(a: string, b: string) {
    if b == "" then false
    else if a == "" then true
    else a[0] < b[0] || (a[0] == b[0] && Less(a[1..], b[1..]))
  }

  lemma {:induction false} LessTotal(a: string, b: string)
    ensures Less(a, b) || a == b || Less(b, a)
  {
    if a != "" && b != "" {
      assert a == [a[0]] + a[1..] && b == [b[0]] + b[1..];
      LessTotal(a[1..], b[1..]);
    }
  }

  lemma {:induction false} LessAsymmetric(a: string, b: string)
    ensures !(Less(a, b) && Less(b, a))
  {
    if a != "" && b != "" {
      LessAsymmetric(a[1..], b[1..]);
    }
  }

  lemma {:induction false} LessTransitive(a: string, b: string, c: string)
    requires Less(a, b) && Less(b, c)
    ensures Less(a, c)
  {
    if a != "" {
      if a[0] == b[0] && b[0] == c[0] {
        LessTransitive(a[1..], b[1..], c[1..]);
      }
    }
  }

  function Self(x: string): string { x }

  /** Strictly ascending keys: sorted, and no key twice. */
  ghost predicate SortedBy<T>(s: seq<T>, key: T -> string) {
    forall i, j :: 0 <= i < j < |s| ==> Less(key(s[i]), key(s[j]))
  }

  /** The map has exactly the keys of the listed items. */
  ghost predicate KeyedBy<T, V>(m: map<string, V>, items: seq<T>, key: T -> string) {
    forall id :: id in m <==> exists i :: 0 <= i < |items| && key(items[i]) == id
  }

  lemma SortedDistinct<T>(s: seq<T>, key: T -> string, i: nat, j: nat)
    requires SortedBy(s, key) && i < |s| && j < |s| && key(s[i]) == key(s[j])
    ensures i == j
  {
    LessAsymmetric(key(s[i]), key(s[j]));
  }

  /** A strictly sorted list is determined by what it contains. */
  lemma {:induction false} SortedUnique<T>(a: seq<T>, b: seq<T>, key: T -> string)
    requires SortedBy(a, key) && SortedBy(b, key)
    requires forall x :: x in a <==> x in b
    ensures a == b
  {
    if b != [] { assert b[0] in a; }
    if a != [] {
      assert a[0] in b;
      var j :| 0 <= j < |b| && b[j] == a[0];
      assert b[0] in a;
      var i :| 0 <= i < |a| && a[i] == b[0];
      LessAsymmetric(key(a[0]), key(b[0]));
      assert i == 0 && j == 0;
      forall x ensures x in a[1..] <==> x in b[1..] {
        LessAsymmetric(key(a[0]), key(a[0]));
        if x in a[1..] {
          var k :| 1 <= k < |a| && a[k] == x;
          assert x in b && x != a[0];
        }
        if x in b[1..] {
          var k :| 1 <= k < |b| && b[k] == x;
          assert x in a && x != b[0];
        }
      }
      SortedUnique(a[1..], b[1..], key);
      assert a == [a[0]] + a[1..] && b == [b[0]] + b[1..];
    }
  }

  function Insert<T>(x: T, s: seq<T>, key: T -> string): (r: seq<T>)
    ensures multiset(r) == multiset(s) + multiset{x}
  {
    if s == [] || Less(key(x), key(s[0])) then [x] + s
    else
      assert s == [s[0]] + s[1..];
      [s[0]] + Insert(x, s[1..], key)
  }

  lemma {:induction false} InsertSorted<T>(x: T, s: seq<T>, key: T -> string)
    requires SortedBy(s, key)
    requires forall y :: y in s ==> key(y) != key(x)
    ensures SortedBy(Insert(x, s, key), key)
    ensures forall y :: y in Insert(x, s, key) <==> y == x || y in s
  {
    var r := Insert(x, s, key);
    forall y ensures y in r <==> y == x || y in s {
      assert y in r <==> y in multiset(r);
    }
    if s == [] {
    } else if Less(key(x), key(s[0])) {
      forall j | 0 <= j < |s| ensures Less(key(x), key(s[j])) {
        if j > 0 { LessTransitive(key(x), key(s[0]), key(s[j])); }
      }
    } else {
      InsertSorted(x, s[1..], key);
      assert s[0] in s;
      LessTotal(key(x), key(s[0]));
      var t := Insert(x, s[1..], key);
      forall j | 0 <= j < |t| ensures Less(key(s[0]), key(t[j])) {
        assert t[j] in t;
        if t[j] != x {
          assert t[j] in multiset(t);
          var k :| 0 <= k < |s[1..]| && s[1..][k] == t[j];
          assert t[j] == s[k + 1];
        }
      }
    }
  }

  /** `sort_by` on the key: insertion order among equal keys is kept. */
  function Sort<T>(s: seq<T>, key: T -> string): (r: seq<T>)
    ensures multiset(r) == multiset(s)
  {
    if s == [] then []
    else
      assert s == s[..|s| - 1] + [s[|s| - 1]];
      Insert(s[|s| - 1], Sort(s[..|s| - 1], key), key)
  }

  predicate DistinctBy<T>(s: seq<T>, key: T -> string) {
    forall i, j :: 0 <= i < j < |s| ==> key(s[i]) != key(s[j])
  }

  lemma {:induction false} SortSorts<T>(s: seq<T>, key: T -> string)
    requires DistinctBy(s, key)
    ensures SortedBy(Sort(s, key), key)
    ensures forall x :: x in Sort(s, key) <==> x in s
  {
    forall x ensures x in Sort(s, key) <==> x in s {
      assert x in Sort(s, key) <==> x in multiset(Sort(s, key));
    }
    if s != [] {
      var front := s[..|s| - 1];
      SortSorts(front, key);
      forall y | y in Sort(front, key) ensures key(y) != key(s[|s| - 1]) {
        assert y in multiset(Sort(front, key));
        assert y in multiset(front);
        var k :| 0 <= k < |front| && front[k] == y;
      }
      InsertSorted(s[|s| - 1], Sort(front, key), key);
    }
  }

  ghost predicate InjectiveOn<T(!new)>(s: set<T>, key: T -> string) {
    forall x, y :: x in s && y in s && key(x) == key(y) ==> x == y
  }

  /** The members of a finite set, in key order. */
  ghost function Listing<T(!new)>(s: set<T>, key: T -> string): seq<T> {
    if s == {} then []
    else
      var x :| x in s;
      Insert(x, Listing(s - {x}, key), key)
  }

  lemma {:induction false} ListingSorted<T(!new)>(s: set<T>, key: T -> string)
    requires InjectiveOn(s, key)
    ensures SortedBy(Listing(s, key), key)
    ensures forall x :: x in Listing(s, key) <==> x in s
  {
    if s != {} {
      var x :| x in s && Listing(s, key) == Insert(x, Listing(s - {x}, key), key);
      var rest := Listing(s - {x}, key);
      ListingSorted(s - {x}, key);
      forall y | y in rest ensures key(y) != key(x) {
        assert y in s - {x};
      }
      InsertSorted(x, rest, key);
    }
  }

  /** Whatever order the members were met in, sorting them gives the one listing. */
  lemma ListingUnique<T(!new)>(s: set<T>, key: T -> string, l: seq<T>)
    requires InjectiveOn(s, key)
    requires SortedBy(l, key) && forall x :: x in l <==> x in s
    ensures l == Listing(s, key)
  {
    ListingSorted(s, key);
    SortedUnique(l, Listing(s, key), key);
  }

  /** Collects a hashed set in whatever order it yields its members, then sorts. */
  method Collect<T(!new, ==)>(s: set<T>, key: T -> string) returns (l: seq<T>)
    requires InjectiveOn(s, key)
    ensures l == Listing(s, key)
  {
    l := [];
    var rest := s;
    while rest != {}
      invariant rest <= s
      invariant SortedBy(l, key)
      invariant forall x :: x in l <==> x in s - rest
      decreases rest
    {
      var x :| x in rest;
      forall y | y in l ensures key(y) != key(x) {
        assert y in s - rest;
      }
      InsertSorted(x, l, key);
      l := Insert(x, l, key);
      rest := rest - {x};
    }
    ListingUnique(s, key, l);
  }
}
