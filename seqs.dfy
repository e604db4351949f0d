/** Sequence operations the screens and services use on lists of cafés and
    tags: `filter`, `slice(0, n)`, `[...prev, x]`, and the ordering a query's
    `orderBy` imposes, modelled as a stable insertion sort. */
module Seqs {

  /** `s.filter(p)` */
  function Filter<T(!new)>(s: seq<T>, p: T -> bool): (r: seq<T>)
    ensures |r| <= |s|
    ensures forall x :: x in r <==> x in s && p(x)
  {
    if s == [] then [] else (if p(s[0]) then [s[0]] else []) + Filter(s[1..], p)
  }

  /** Filtering a list whose members all pass returns it unchanged. */
  lemma {:induction false} FilterKeepsAll<T(!new)>(s: seq<T>, p: T -> bool)
    requires forall i :: 0 <= i < |s| ==> p(s[i])
    ensures Filter(s, p) == s
  {
    if s != [] {
      FilterKeepsAll(s[1..], p);
    }
  }

  /** One rejected element between two stretches that pass vanishes. */
  lemma FilterDropsOne<T(!new)>(x: seq<T>, c: T, y: seq<T>, p: T -> bool)
    requires forall i :: 0 <= i < |x| ==> p(x[i])
    requires forall i :: 0 <= i < |y| ==> p(y[i])
    requires !p(c)
    ensures Filter(x + [c] + y, p) == x + y
  {
    FilterAppend(x + [c], y, p);
    FilterAppend(x, [c], p);
    FilterKeepsAll(x, p);
    FilterKeepsAll(y, p);
    assert Filter([c], p) == [] by {
      assert [c][1..] == [];
    }
    assert x + [] == x;
  }

  /** `a` is `b` with some elements removed and the rest in their original order. */
  predicate IsSubsequence<T(==)>(a: seq<T>, b: seq<T>)
    decreases |b|
  {
    if a == [] then true
    else if b == [] then false
    else if a[0] == b[0] then IsSubsequence(a[1..], b[1..])
    else IsSubsequence(a, b[1..])
  }

  /** Filtering keeps the survivors in their original relative order. */
  lemma {:induction false} FilterIsSubsequence<T(!new)>(s: seq<T>, p: T -> bool)
    ensures IsSubsequence(Filter(s, p), s)
  {
    if s != [] {
      FilterIsSubsequence(s[1..], p);
      var rest := Filter(s[1..], p);
      if p(s[0]) {
        assert Filter(s, p) == [s[0]] + rest;
        assert (Filter(s, p))[1..] == rest;
      } else {
        assert Filter(s, p) == rest;
        if rest != [] {
          assert rest[0] in rest;
          assert rest[0] != s[0];
        }
      }
    }
  }

  /** A prefix keeps every element, in order. */
  lemma {:induction false} PrefixIsSubsequence<T>(a: seq<T>, b: seq<T>)
    requires a <= b
    ensures IsSubsequence(a, b)
  {
    if a != [] {
      PrefixIsSubsequence(a[1..], b[1..]);
    }
  }

  /** Dropping the first element of a subsequence leaves a subsequence. */
  lemma {:induction false} SubsequenceDropHead<T>(a: seq<T>, x: seq<T>)
    requires a != [] && IsSubsequence(a, x)
    ensures IsSubsequence(a[1..], x)
    decreases |x|, 1
  {
    if a[0] == x[0] {
      if x[1..] != [] {
        SubsequenceExtend(a[1..], x);
      }
    } else {
      SubsequenceDropHead(a, x[1..]);
      SubsequenceExtend(a[1..], x);
    }
  }

  /** A subsequence of the tail is a subsequence of the whole. */
  lemma {:induction false} SubsequenceExtend<T>(y: seq<T>, x: seq<T>)
    requires x != [] && IsSubsequence(y, x[1..])
    ensures IsSubsequence(y, x)
    decreases |x|, 0
  {
    if y != [] && y[0] == x[0] {
      SubsequenceDropHead(y, x[1..]);
    }
  }

  lemma {:induction false} SubsequenceTrans<T>(a: seq<T>, b: seq<T>, c: seq<T>)
    requires IsSubsequence(a, b) && IsSubsequence(b, c)
    ensures IsSubsequence(a, c)
    decreases |c|
  {
    if a != [] {
      if b[0] == c[0] {
        if a[0] == b[0] {
          SubsequenceTrans(a[1..], b[1..], c[1..]);
        } else {
          SubsequenceTrans(a, b[1..], c[1..]);
        }
      } else {
        SubsequenceTrans(a, b, c[1..]);
        SubsequenceExtend(a, c);
      }
    }
  }

  /** `s.slice(0, n)` / a query's `limit(n)`. */
  function Take<T>(s: seq<T>, n: nat): (r: seq<T>)
    ensures |r| <= n && |r| <= |s|
    ensures r <= s
    ensures |s| <= n ==> r == s
    ensures n <= |s| ==> |r| == n
  {
    if |s| <= n then s else s[..n]
  }

  /** `prev.includes(x) ? prev.filter(t => t !== x) : [...prev, x]` */
  function Toggle<T(==,!new)>(s: seq<T>, x: T): (r: seq<T>)
    ensures x in r <==> x !in s
    ensures forall y :: y != x ==> (y in r <==> y in s)
    ensures x in s ==> IsSubsequence(r, s)
    ensures x !in s ==> r == s + [x]
  {
    if x in s then
      FilterIsSubsequence(s, y => y != x);
      Filter(s, y => y != x)
    else s + [x]
  }

  /** Removing an absent element changes nothing. */
  lemma {:induction false} RemoveAbsent<T(!new)>(s: seq<T>, x: T)
    requires x !in s
    ensures Filter(s, y => y != x) == s
  {
    if s != [] {
      RemoveAbsent(s[1..], x);
      assert s == [s[0]] + s[1..];
    }
  }

  /** Toggling an absent element twice gives back the original list. */
  lemma ToggleTwice<T(!new)>(s: seq<T>, x: T)
    requires x !in s
    ensures Toggle(Toggle(s, x), x) == s
  {
    RemoveAbsent(s, x);
    FilterAppend(s, [x], y => y != x);
    assert Filter([x], y => y != x) == [];
  }

  lemma {:induction false} FilterAppend<T(!new)>(a: seq<T>, b: seq<T>, p: T -> bool)
    ensures Filter(a + b, p) == Filter(a, p) + Filter(b, p)
  {
    if a != [] {
      FilterAppend(a[1..], b, p);
      assert (a + b)[1..] == a[1..] + b;
    } else {
      assert a + b == b;
    }
  }

  /** `le` orders any two values one way or the other. */
  ghost predicate Total<T(!new)>(le: (T, T) -> bool) {
    forall a, b :: le(a, b) || le(b, a)
  }

  /** `le` chains: what precedes something that precedes `c` precedes `c`. */
  ghost predicate Transitive<T(!new)>(le: (T, T) -> bool) {
    forall a, b, c :: le(a, b) && le(b, c) ==> le(a, c)
  }

  predicate SortedBy<T>(s: seq<T>, le: (T, T) -> bool) {
    forall i :: 0 <= i < |s| - 1 ==> le(s[i], s[i + 1])
  }

  /** Inserts `x` before the first element it may precede. */
  function Insert<T>(x: T, s: seq<T>, le: (T, T) -> bool): (r: seq<T>)
    ensures |r| == |s| + 1
    ensures multiset(r) == multiset(s) + multiset{x}
    ensures r[0] == x || (s != [] && r[0] == s[0])
  {
    if s == [] || le(x, s[0]) then [x] + s
    else
      var t := Insert(x, s[1..], le);
      assert s == [s[0]] + s[1..];
      [s[0]] + t
  }

  /** The order a query's `orderBy` returns documents in. */
  function SortBy<T>(s: seq<T>, le: (T, T) -> bool): (r: seq<T>)
    ensures multiset(r) == multiset(s)
    ensures |r| == |s|
  {
    if s == [] then []
    else
      assert s == [s[0]] + s[1..];
      Insert(s[0], SortBy(s[1..], le), le)
  }

  lemma {:induction false} InsertSorted<T(!new)>(x: T, s: seq<T>, le: (T, T) -> bool)
    requires Total(le) && SortedBy(s, le)
    ensures SortedBy(Insert(x, s, le), le)
  {
    if s != [] && !le(x, s[0]) {
      InsertSorted(x, s[1..], le);
      var t := Insert(x, s[1..], le);
      assert le(s[0], x);
      assert s[1..] != [] ==> le(s[0], s[1]);
    }
  }

  lemma {:induction false} SortBySorted<T(!new)>(s: seq<T>, le: (T, T) -> bool)
    requires Total(le)
    ensures SortedBy(SortBy(s, le), le)
  {
    if s != [] {
      SortBySorted(s[1..], le);
      InsertSorted(s[0], SortBy(s[1..], le), le);
    }
  }

  /** Under a transitive order, a list sorted pair by pair is sorted between
      any two positions. */
  lemma {:induction false} SortedPairs<T(!new)>(s: seq<T>, le: (T, T) -> bool, i: nat, j: nat)
    requires Transitive(le) && SortedBy(s, le)
    requires i < j < |s|
    ensures le(s[i], s[j])
    decreases j - i
  {
    if i + 1 < j {
      SortedPairs(s, le, i + 1, j);
    }
  }

  /** The first `n` of a sorted list precede everything after them. */
  lemma TakeIsTop<T(!new)>(sorted: seq<T>, le: (T, T) -> bool, n: nat)
    requires Transitive(le) && SortedBy(sorted, le)
    ensures var r := Take(sorted, n);
      forall x, i :: x in sorted && x !in r && 0 <= i < |r| ==> le(r[i], x)
  {
    var r := Take(sorted, n);
    forall x, i | x in sorted && x !in r && 0 <= i < |r| ensures le(r[i], x) {
      var rest := sorted[|r|..];
      assert sorted == r + rest;
      assert x in rest;
      var k :| 0 <= k < |rest| && rest[k] == x;
      SortedPairs(sorted, le, i, |r| + k);
    }
  }

  /** Sorting the filtered documents keeps exactly the ones that pass. */
  lemma SortedMembers<T(!new)>(docs: seq<T>, p: T -> bool, le: (T, T) -> bool)
    ensures forall x :: x in SortBy(Filter(docs, p), le) <==> x in docs && p(x)
  {
    var f := Filter(docs, p);
    assert forall x :: x in SortBy(f, le) <==> x in multiset(f);
  }

  /** What a `where`/`orderBy`/`limit` query returns, given the documents that
      pass its filters: at most `limit` of them, each one from `docs` and
      passing `p`, in `le` order, and all of them when fewer than `limit`
      came back. It is the top of the ranking: a matching document left out
      ranks no higher than any returned one. */
  lemma QueryResult<T(!new)>(docs: seq<T>, p: T -> bool, le: (T, T) -> bool, limit: nat)
    requires Total(le) && Transitive(le)
    ensures var r := Take(SortBy(Filter(docs, p), le), limit);
      && |r| <= limit
      && (forall x :: x in r ==> x in docs && p(x))
      && SortedBy(r, le)
      && (|r| < limit ==> forall x :: x in docs && p(x) ==> x in r)
      && (forall x, i :: x in docs && p(x) && x !in r && 0 <= i < |r| ==> le(r[i], x))
  {
    var f := Filter(docs, p);
    var sorted := SortBy(f, le);
    SortBySorted(f, le);
    SortedMembers(docs, p, le);
    TakeIsTop(sorted, le, limit);
  }
}
