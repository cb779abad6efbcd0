/** Reading one list of a scene: check every entry, refuse a repeated key, sort what is left. */
module Loading {
  import opened Base
  import opened Order
  import opened Sl1Scene

  /** The checked entries, in the order of declaration; none if some entry is refused. */
  function Checked<R, T>(raws: seq<R>, check: R -> Option<T>): (r: Option<seq<T>>)
    ensures r.Some? <==> forall i :: 0 <= i < |raws| ==> check(raws[i]).Some?
    ensures r.Some? ==> |r.value| == |raws| && forall i :: 0 <= i < |raws| ==> check(raws[i]) == Some(r.value[i])
  {
    if raws == [] then Some([])
    else
      var front, last := Checked(raws[..|raws| - 1], check), check(raws[|raws| - 1]);
      if front.None? || last.None? then None else Some(front.value + [last.value])
  }

  /** The list that is loaded: checked, without repeats, in key order. */
  function Listed<R, T>(raws: seq<R>, check: R -> Option<T>, key: T -> string): Option<seq<T>> {
    var items := Checked(raws, check);
    if items.Some? && DistinctBy(items.value, key) then Some(Sort(items.value, key)) else None
  }

  function Section<R, T>(raws: seq<R>, check: R -> Option<T>, key: T -> string): Option<seq<T>> {
    if |raws| > MAX_ITEMS then None else Listed(raws, check, key)
  }

  lemma ListedIs<R, T(!new)>(raws: seq<R>, check: R -> Option<T>, key: T -> string)
    requires Listed(raws, check, key).Some?
    ensures var items := Listed(raws, check, key).value;
      && SortedBy(items, key) && |items| == |raws|
      && (forall x :: x in items ==> exists r :: r in raws && check(r) == Some(x))
      && (forall r :: r in raws ==> check(r).Some? && check(r).value in items)
  {
    var items := Checked(raws, check).value;
    var sorted := Sort(items, key);
    SortSorts(items, key);
    assert |sorted| == |multiset(sorted)| == |multiset(items)| == |items|;
    forall x | x in sorted ensures exists r :: r in raws && check(r) == Some(x) {
      var i :| 0 <= i < |items| && items[i] == x;
      assert raws[i] in raws && check(raws[i]) == Some(x);
    }
    forall r | r in raws ensures check(r).Some? && check(r).value in sorted {
      var i :| 0 <= i < |raws| && raws[i] == r;
      assert items[i] in items;
    }
  }

  // ---- The order of declaration does not matter ----

  lemma {:induction false} Twice<T>(s: seq<T>, x: T)
    requires multiset(s)[x] >= 2
    ensures exists i, j :: 0 <= i < j < |s| && s[i] == x && s[j] == x
  {
    var front, last := s[..|s| - 1], s[|s| - 1];
    assert s == front + [last];
    if last == x {
      assert x in multiset(front);
      var i :| 0 <= i < |front| && front[i] == x;
      assert s[i] == x && s[|s| - 1] == x;
    } else {
      Twice(front, x);
      var i, j :| 0 <= i < j < |front| && front[i] == x && front[j] == x;
      assert s[i] == x && s[j] == x;
    }
  }

  lemma {:induction false} CountTwo<T>(s: seq<T>, i: nat, j: nat)
    requires i < j < |s| && s[i] == s[j]
    ensures multiset(s)[s[i]] >= 2
  {
    assert s == s[..j] + [s[j]] + s[j + 1..];
    assert s[..j][i] == s[i];
    assert s[i] in multiset(s[..j]);
  }

  lemma SameMembers<T>(a: seq<T>, b: seq<T>)
    requires multiset(a) == multiset(b)
    ensures |a| == |b| && forall x :: x in a <==> x in b
  {
    assert |a| == |multiset(a)| && |b| == |multiset(b)|;
    forall x ensures x in a <==> x in b {
      assert x in multiset(a) <==> x in multiset(b);
    }
  }

  lemma DistinctAnyOrder<T>(a: seq<T>, b: seq<T>, key: T -> string)
    requires multiset(a) == multiset(b) && DistinctBy(a, key)
    ensures DistinctBy(b, key)
  {
    SameMembers(a, b);
    forall i, j | 0 <= i < j < |b| ensures key(b[i]) != key(b[j]) {
      if b[i] == b[j] {
        CountTwo(b, i, j);
        Twice(a, b[i]);
      } else {
        var k :| 0 <= k < |a| && a[k] == b[i];
        var l :| 0 <= l < |a| && a[l] == b[j];
        assert k < l || l < k;
      }
    }
  }

  lemma {:induction false} CheckedCounts<R, T>(raws: seq<R>, check: R -> Option<T>, x: T)
    requires Checked(raws, check).Some?
    ensures multiset(Checked(raws, check).value)[x] == Matching(raws, check, x)
  {
    if raws != [] {
      var front := raws[..|raws| - 1];
      assert raws == front + [raws[|raws| - 1]];
      CheckedCounts(front, check, x);
    }
  }

  /** How many entries check to x. */
  function Matching<R, T(==)>(raws: seq<R>, check: R -> Option<T>, x: T): nat {
    if raws == [] then 0
    else Matching(raws[..|raws| - 1], check, x) + if check(raws[|raws| - 1]) == Some(x) then 1 else 0
  }

  lemma MatchingMore<R, T>(raws: seq<R>, r: R, check: R -> Option<T>, x: T)
    ensures Matching(raws + [r], check, x) == Matching(raws, check, x) + if check(r) == Some(x) then 1 else 0
  {
    assert (raws + [r])[..|raws|] == raws;
  }

  lemma {:induction false} MatchingSplit<R, T>(a: seq<R>, b: seq<R>, check: R -> Option<T>, x: T)
    ensures Matching(a + b, check, x) == Matching(a, check, x) + Matching(b, check, x)
  {
    if b == [] {
      assert a + b == a;
    } else {
      var front, last := b[..|b| - 1], b[|b| - 1];
      assert a + b == (a + front) + [last];
      MatchingSplit(a, front, check, x);
      MatchingMore(a + front, last, check, x);
    }
  }

  lemma {:induction false} MatchingAnyOrder<R, T>(a: seq<R>, b: seq<R>, check: R -> Option<T>, x: T)
    requires multiset(a) == multiset(b)
    ensures Matching(a, check, x) == Matching(b, check, x)
    decreases |a|
  {
    SameMembers(a, b);
    if a != [] {
      var front, last := a[..|a| - 1], a[|a| - 1];
      assert a == front + [last];
      assert last in b;
      var k :| 0 <= k < |b| && b[k] == last;
      var rest := b[..k] + b[k + 1..];
      assert b == b[..k] + [last] + b[k + 1..];
      assert multiset(a) == multiset(front) + multiset{last};
      assert multiset(b) == multiset(rest) + multiset{last};
      assert multiset(front) == multiset(a) - multiset{last} && multiset(rest) == multiset(b) - multiset{last};
      MatchingAnyOrder(front, rest, check, x);
      MatchingSplit(b[..k], b[k + 1..], check, x);
      MatchingMore(b[..k], last, check, x);
      MatchingSplit(b[..k] + [last], b[k + 1..], check, x);
    }
  }

  /** However the entries are ordered, the same list is loaded, or none is. */
  lemma ListedAnyOrder<R, T(!new)>(a: seq<R>, b: seq<R>, check: R -> Option<T>, key: T -> string)
    requires multiset(a) == multiset(b)
    ensures Listed(a, check, key) == Listed(b, check, key)
  {
    SameMembers(a, b);
    if Checked(a, check).Some? || Checked(b, check).Some? {
      assert forall i :: 0 <= i < |b| ==> b[i] in a;
      assert forall i :: 0 <= i < |a| ==> a[i] in b;
      var xs, ys := Checked(a, check).value, Checked(b, check).value;
      forall x ensures multiset(xs)[x] == multiset(ys)[x] {
        CheckedCounts(a, check, x);
        CheckedCounts(b, check, x);
        MatchingAnyOrder(a, b, check, x);
      }
      assert multiset(xs) == multiset(ys);
      if DistinctBy(xs, key) || DistinctBy(ys, key) {
        if DistinctBy(xs, key) { DistinctAnyOrder(xs, ys, key); } else { DistinctAnyOrder(ys, xs, key); }
        SortSorts(xs, key);
        SortSorts(ys, key);
        SameMembers(xs, ys);
        SortedUnique(Sort(xs, key), Sort(ys, key), key);
      }
    }
  }

  lemma SectionAnyOrder<R, T(!new)>(a: seq<R>, b: seq<R>, check: R -> Option<T>, key: T -> string)
    requires multiset(a) == multiset(b)
    ensures Section(a, check, key) == Section(b, check, key)
  {
    SameMembers(a, b);
    ListedAnyOrder(a, b, check, key);
  }

  // ---- The loop of the source ----

  /** One pass: each entry is checked, its key looked up among those seen, and kept; the list is sorted at the end. */
  method Load<R, T(!new)>(raws: seq<R>, check: R -> Option<T>, key: T -> string) returns (r: Option<seq<T>>)
    ensures r == Listed(raws, check, key)
  {
    var items: seq<T> := [];
    var seen: set<string> := {};
    for i := 0 to |raws|
      invariant Checked(raws[..i], check) == Some(items)
      invariant seen == set x | x in items :: key(x)
      invariant DistinctBy(items, key)
    {
      assert raws[..i + 1][..i] == raws[..i];
      var item := check(raws[i]);
      if item.None? {
        assert check(raws[i]).None?;
        return None;
      }
      if key(item.value) in seen {
        Repeated(raws, i, check, key, items);
        return None;
      }
      forall j | 0 <= j < |items| ensures key(items[j]) != key(item.value) {
        assert items[j] in items;
      }
      items := items + [item.value];
      seen := seen + {key(item.value)};
    }
    assert raws[..|raws|] == raws;
    return Some(Sort(items, key));
  }

  lemma Repeated<R, T(!new)>(raws: seq<R>, i: nat, check: R -> Option<T>, key: T -> string, items: seq<T>)
    requires i < |raws| && Checked(raws[..i], check) == Some(items) && check(raws[i]).Some?
    requires exists x :: x in items && key(x) == key(check(raws[i]).value)
    ensures Listed(raws, check, key) == None
  {
    if Checked(raws, check).Some? {
      var all := Checked(raws, check).value;
      var x :| x in items && key(x) == key(check(raws[i]).value);
      var j :| 0 <= j < |items| && items[j] == x;
      assert check(raws[..i][j]) == Some(items[j]) && raws[..i][j] == raws[j];
      assert key(all[j]) == key(all[i]);
    }
  }
}
