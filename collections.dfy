/** Generic operations that every page applies to its persisted array of records:
    `Array.prototype.filter` (the visible subset and delete-by-id) and the
    `Array.prototype.map(x => selected ? rewrite(x) : x)` idiom of the update handlers. */
module Collections {

  datatype Option<T> = None | Some(value: T)

  /** `s.filter(p)`: the elements of `s` that satisfy `p`, in their original order. */
  function Filter<T>(s: seq<T>, p: T -> bool): (r: seq<T>)
    ensures |r| <= |s|
    ensures forall x :: x in r ==> x in s && p(x)
  {
    if s == [] then []
    else if p(s[0]) then [s[0]] + Filter(s[1..], p)
    else Filter(s[1..], p)
  }

  /** Each passing element is kept as often as it occurs in `s`; the others are dropped. */
  lemma {:induction false} FilterMultiplicity<T>(s: seq<T>, p: T -> bool)
    ensures forall x :: x in s ==>
      multiset(Filter(s, p))[x] == if p(x) then multiset(s)[x] else 0
  {
    if s != [] {
      FilterMultiplicity(s[1..], p);
      assert s == [s[0]] + s[1..];
    }
  }

  /** `a` can be obtained from `b` by deleting elements: no reordering, no
      duplication and nothing that was not in `b`. */
  predicate IsSubsequence<T(==)>(a: seq<T>, b: seq<T>)
  {
    if a == [] then true
    else if b == [] then false
    else if a[0] == b[0] then IsSubsequence(a[1..], b[1..])
    else IsSubsequence(a, b[1..])
  }

  /** `s.map(x => sel(x) ? f(x) : x)`: rewrite the selected elements in place. */
  function ReplaceWhere<T>(s: seq<T>, sel: T -> bool, f: T -> T): (r: seq<T>)
    ensures |r| == |s|
    ensures forall i :: 0 <= i < |s| ==> r[i] == if sel(s[i]) then f(s[i]) else s[i]
  {
    if s == [] then [] else [if sel(s[0]) then f(s[0]) else s[0]] + ReplaceWhere(s[1..], sel, f)
  }

  /** The visible subset is a subsequence of the collection. */
  lemma {:induction false} FilterIsSubsequence<T>(s: seq<T>, p: T -> bool)
    ensures IsSubsequence(Filter(s, p), s)
  {
    if s != [] {
      FilterIsSubsequence(s[1..], p);
      var rest := Filter(s[1..], p);
      if !p(s[0]) && rest != [] {
        // the head was dropped, and every kept element passes p, so it differs from the head
        assert rest[0] in rest;
        assert rest[0] != s[0];
      }
    }
  }

  /** An element is kept exactly when it is in the collection and passes the predicate. */
  lemma {:induction false} FilterMembership<T>(s: seq<T>, p: T -> bool, x: T)
    ensures x in Filter(s, p) <==> x in s && p(x)
  {
    if s != [] {
      FilterMembership(s[1..], p, x);
      assert x in s <==> x == s[0] || x in s[1..];
    }
  }

  lemma FilterMembershipAll<T>(s: seq<T>, p: T -> bool)
    ensures forall x :: x in Filter(s, p) <==> x in s && p(x)
  {
    forall x ensures x in Filter(s, p) <==> x in s && p(x) {
      FilterMembership(s, p, x);
    }
  }

  /** When every element passes, nothing is dropped. */
  lemma {:induction false} FilterKeepsAll<T>(s: seq<T>, p: T -> bool)
    requires forall i :: 0 <= i < |s| ==> p(s[i])
    ensures Filter(s, p) == s
  {
    if s != [] {
      FilterKeepsAll(s[1..], p);
      assert [s[0]] + s[1..] == s;
    }
  }

  /** When no element passes, the result is empty. */
  lemma {:induction false} FilterDropsAll<T>(s: seq<T>, p: T -> bool)
    requires forall i :: 0 <= i < |s| ==> !p(s[i])
    ensures Filter(s, p) == []
  {
    if s != [] {
      FilterDropsAll(s[1..], p);
    }
  }

  /** Filtering distributes over concatenation (an appended record is filtered on its own). */
  lemma {:induction false} FilterAppend<T>(a: seq<T>, b: seq<T>, p: T -> bool)
    ensures Filter(a + b, p) == Filter(a, p) + Filter(b, p)
  {
    if a == [] {
      assert a + b == b;
    } else {
      var ab := a + b;
      assert ab[0] == a[0] && ab[1..] == a[1..] + b;
      FilterAppend(a[1..], b, p);
      if p(a[0]) {
        calc {
          Filter(ab, p);
          [a[0]] + Filter(a[1..] + b, p);
          [a[0]] + (Filter(a[1..], p) + Filter(b, p));
          ([a[0]] + Filter(a[1..], p)) + Filter(b, p);
        }
      }
    }
  }

  /** The elements dropped by `p` and the elements kept by it together account for the whole collection. */
  lemma {:induction false} FilterPartition<T>(s: seq<T>, p: T -> bool, q: T -> bool)
    requires forall x :: q(x) == !p(x)
    ensures |Filter(s, p)| + |Filter(s, q)| == |s|
  {
    if s != [] {
      FilterPartition(s[1..], p, q);
    }
  }

  /** No two elements share a key (the records' `id`). */
  predicate UniqueKeys<T>(s: seq<T>, key: T -> int)
  {
    forall i, j :: 0 <= i < j < |s| ==> key(s[i]) != key(s[j])
  }

  /** The keys in use. */
  function KeySet<T>(s: seq<T>, key: T -> int): set<int>
  {
    set i | 0 <= i < |s| :: key(s[i])
  }

  /** Appending an element whose key is not in use keeps the keys unique. */
  lemma AppendFreshKey<T>(s: seq<T>, x: T, key: T -> int)
    requires UniqueKeys(s, key) && key(x) !in KeySet(s, key)
    ensures UniqueKeys(s + [x], key)
  {
    var r := s + [x];
    forall i, j | 0 <= i < j < |r| ensures key(r[i]) != key(r[j]) {
      if j == |s| {
        assert key(r[i]) in KeySet(s, key);
      }
    }
  }

  /** A rewrite that never changes an element's key keeps the keys unique. */
  lemma ReplaceKeepsUniqueKeys<T>(s: seq<T>, sel: T -> bool, f: T -> T, key: T -> int)
    requires UniqueKeys(s, key)
    requires forall x :: key(f(x)) == key(x)
    ensures UniqueKeys(ReplaceWhere(s, sel, f), key)
  {
    var r := ReplaceWhere(s, sel, f);
    assert forall i :: 0 <= i < |r| ==> key(r[i]) == key(s[i]);
  }

  /** Filtering keeps the keys unique. */
  lemma {:induction false} FilterKeepsUniqueKeys<T>(s: seq<T>, p: T -> bool, key: T -> int)
    requires UniqueKeys(s, key)
    ensures UniqueKeys(Filter(s, p), key)
  {
    if s != [] {
      FilterKeepsUniqueKeys(s[1..], p, key);
      var rest := Filter(s[1..], p);
      if p(s[0]) {
        FilterMembershipAll(s[1..], p);
        var r := [s[0]] + rest;
        forall i, j | 0 <= i < j < |r| ensures key(r[i]) != key(r[j]) {
          if i == 0 {
            assert r[j] in s[1..];
            var k :| 0 <= k < |s[1..]| && s[1..][k] == r[j];
            assert s[k + 1] == r[j];
          } else {
            assert r[i] == rest[i - 1] && r[j] == rest[j - 1];
          }
        }
      }
    }
  }

  /** Replacing one element changes how many elements pass by what it takes away and adds. */
  lemma {:induction false} FilterCountAfterUpdate<T>(s: seq<T>, k: int, y: T, p: T -> bool)
    requires 0 <= k < |s|
    ensures |Filter(s[k := y], p)|
         == |Filter(s, p)| - (if p(s[k]) then 1 else 0) + (if p(y) then 1 else 0)
  {
    var t := s[k := y];
    if k == 0 {
      assert t[1..] == s[1..];
    } else {
      assert t[1..] == s[1..][k - 1 := y];
      FilterCountAfterUpdate(s[1..], k - 1, y, p);
    }
  }

  /** When only the element at `k` is selected, a rewrite is an update at `k`. */
  lemma ReplaceOnlyAt<T>(s: seq<T>, sel: T -> bool, f: T -> T, k: int)
    requires 0 <= k < |s| && sel(s[k])
    requires forall i :: 0 <= i < |s| && i != k ==> !sel(s[i])
    ensures ReplaceWhere(s, sel, f) == s[k := f(s[k])]
  {
  }
}
