/**
 * Sequence operations the system relies on: `Array.prototype.filter` (and a SQL
 * WHERE clause), `ORDER BY key [ASC|DESC]` and `ORDER BY key DESC LIMIT 1`.
 */
module Lists {

  /** r occurs in s in order, possibly with gaps (greedy matching decides it). */
  ghost predicate IsSubseq<T>(r: seq<T>, s: seq<T>)
    decreases |s|
  {
    if r == [] then true
    else if s == [] then false
    else if r[0] == s[0] then IsSubseq(r[1..], s[1..])
    else IsSubseq(r, s[1..])
  }

  /** The elements of s that satisfy p, in their original order. */
  function Filter<T(!new)>(s: seq<T>, p: T -> bool): (r: seq<T>)
    ensures |r| <= |s|
    ensures forall x :: x in r <==> x in s && p(x)
    decreases |s|
  {
    if s == [] then []
    else
      assert s == [s[0]] + s[1..];
      var rest := Filter(s[1..], p);
      if p(s[0]) then [s[0]] + rest else rest
  }

  /** A filter keeps nothing exactly when it rejects every element. */
  lemma {:induction false} FilterNone<T(!new)>(s: seq<T>, p: T -> bool)
    ensures Filter(s, p) == [] <==> forall i :: 0 <= i < |s| ==> !p(s[i])
    decreases |s|
  {
    if s != [] {
      FilterNone(s[1..], p);
      assert forall i :: 1 <= i < |s| ==> s[1..][i - 1] == s[i];
    }
  }

  /** The filter keeps every occurrence of every element that satisfies p, and nothing else. */
  lemma {:induction false} FilterCounts<T(!new)>(s: seq<T>, p: T -> bool)
    ensures forall x :: multiset(Filter(s, p))[x] == if p(x) then multiset(s)[x] else 0
    decreases |s|
  {
    if s != [] {
      FilterCounts(s[1..], p);
      assert s == [s[0]] + s[1..];
    }
  }

  /** The filter keeps the order of s. */
  lemma {:induction false} FilterSubseq<T(!new)>(s: seq<T>, p: T -> bool)
    ensures IsSubseq(Filter(s, p), s)
    decreases |s|
  {
    if s != [] {
      FilterSubseq(s[1..], p);
      var rest := Filter(s[1..], p);
      if !p(s[0]) && rest != [] {
        assert rest[0] in rest;
      }
    }
  }

  /** Appending one element to the input appends it to the output iff it is kept. */
  lemma {:induction false} FilterAppend<T(!new)>(s: seq<T>, x: T, p: T -> bool)
    ensures Filter(s + [x], p) == Filter(s, p) + (if p(x) then [x] else [])
    decreases |s|
  {
    if s == [] {
      assert [] + [x] == [x];
      assert [x][1..] == [];
    } else {
      assert (s + [x])[0] == s[0];
      assert (s + [x])[1..] == s[1..] + [x];
      FilterAppend(s[1..], x, p);
    }
  }

  /** A filter that every element passes keeps the sequence as it is. */
  lemma {:induction false} FilterKeepsAll<T(!new)>(s: seq<T>, p: T -> bool)
    requires forall i :: 0 <= i < |s| ==> p(s[i])
    ensures Filter(s, p) == s
    decreases |s|
  {
    if s != [] {
      FilterKeepsAll(s[1..], p);
      assert s == [s[0]] + s[1..];
    }
  }

  /** Filters that agree on every element of s select the same elements. */
  lemma {:induction false} FilterAgree<T(!new)>(s: seq<T>, p: T -> bool, q: T -> bool)
    requires forall i :: 0 <= i < |s| ==> p(s[i]) == q(s[i])
    ensures Filter(s, p) == Filter(s, q)
    decreases |s|
  {
    if s != [] {
      FilterAgree(s[1..], p, q);
    }
  }

  /** a may precede b in an ordering by key, ascending or descending. */
  predicate InOrder<T>(a: T, b: T, key: T -> int, descending: bool)
  {
    if descending then key(a) >= key(b) else key(a) <= key(b)
  }

  ghost predicate SortedBy<T>(s: seq<T>, key: T -> int, descending: bool)
  {
    forall i, j :: 0 <= i < j < |s| ==> InOrder(s[i], s[j], key, descending)
  }

  /** Prepending an element that may precede every element keeps a sequence sorted. */
  lemma SortedCons<T(!new)>(a: T, s: seq<T>, key: T -> int, descending: bool)
    requires SortedBy(s, key, descending)
    requires forall y :: y in s ==> InOrder(a, y, key, descending)
    ensures SortedBy([a] + s, key, descending)
  {
    var r := [a] + s;
    forall i, j | 0 <= i < j < |r| ensures InOrder(r[i], r[j], key, descending) {
      assert r[j] == s[j - 1];
      if i > 0 { assert r[i] == s[i - 1]; }
    }
  }

  /** The head of a sorted sequence may precede each of its elements. */
  lemma HeadFirst<T(!new)>(s: seq<T>, key: T -> int, descending: bool)
    requires s != [] && SortedBy(s, key, descending)
    ensures forall y :: y in s ==> InOrder(s[0], y, key, descending)
  {
    forall y | y in s ensures InOrder(s[0], y, key, descending) {
      var j :| 0 <= j < |s| && s[j] == y;
      if j > 0 { assert InOrder(s[0], s[j], key, descending); }
    }
  }

  /** Inserts x before the first element it may precede. */
  function Insert<T(!new)>(x: T, s: seq<T>, key: T -> int, descending: bool): (r: seq<T>)
    requires SortedBy(s, key, descending)
    ensures SortedBy(r, key, descending)
    ensures multiset(r) == multiset(s) + multiset{x}
    ensures |r| == |s| + 1
    decreases |s|
  {
    if s == [] then [x]
    else
      assert s == [s[0]] + s[1..];
      HeadFirst(s, key, descending);
      if InOrder(x, s[0], key, descending) then
        SortedCons(x, s, key, descending);
        [x] + s
      else
        var rest := Insert(x, s[1..], key, descending);
        assert forall y :: y in rest ==> InOrder(s[0], y, key, descending) by {
          forall y | y in rest ensures InOrder(s[0], y, key, descending) {
            assert y in multiset(rest);
            assert y == x || y in s;
          }
        }
        SortedCons(s[0], rest, key, descending);
        [s[0]] + rest
  }

  /**
   * A stable insertion sort. The SQL engine promises only the order of the keys, so
   * the contract states exactly that: ordered by key, and a permutation of s.
   */
  function SortBy<T(!new)>(s: seq<T>, key: T -> int, descending: bool): (r: seq<T>)
    ensures SortedBy(r, key, descending)
    ensures multiset(r) == multiset(s)
    ensures |r| == |s|
    ensures forall x :: x in r <==> x in s
    decreases |s|
  {
    if s == [] then []
    else
      assert s == [s[0]] + s[1..];
      var r := Insert(s[0], SortBy(s[1..], key, descending), key, descending);
      assert forall x :: x in r <==> x in s by {
        forall x ensures x in r <==> x in s {
          assert x in r <==> x in multiset(r);
          assert x in s <==> x in multiset(s);
        }
      }
      r
  }

  /** An element of s whose key is largest (the first such one). */
  function MaxBy<T(!new)>(s: seq<T>, key: T -> int): (m: T)
    requires s != []
    ensures m in s
    ensures forall x :: x in s ==> key(x) <= key(m)
    decreases |s|
  {
    if |s| == 1 then s[0]
    else
      assert s == [s[0]] + s[1..];
      var best := MaxBy(s[1..], key);
      if key(s[0]) >= key(best) then s[0] else best
  }
}
