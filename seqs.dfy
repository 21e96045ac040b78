/** Sequence operations that the application performs with JavaScript's array methods:
    `filter`, `slice(0, n)`, de-duplication through a `Set`, and the (stable) `sort`. */
module Seqs {

  /** `r` can be obtained from `s` by deleting elements: the order of `s` is kept. */
  predicate IsSubsequence<T(==)>(r: seq<T>, s: seq<T>)
    decreases |s|
  {
    r == [] ||
    (s != [] && ((r[0] == s[0] && IsSubsequence(r[1..], s[1..])) || IsSubsequence(r, s[1..])))
  }

  /** No element occurs twice. */
  predicate NoDup<T(==)>(s: seq<T>) {
    forall i, j :: 0 <= i < j < |s| ==> s[i] != s[j]
  }

  /** `Array.prototype.filter`: the elements of `s` satisfying `p`, in their order in `s`. */
  function Filter<T(!new)>(p: T -> bool, s: seq<T>): (r: seq<T>)
    ensures |r| <= |s|
    ensures forall x :: x in r <==> x in s && p(x)
    ensures IsSubsequence(r, s)
  {
    if s == [] then []
    else if p(s[0]) then [s[0]] + Filter(p, s[1..])
    else Filter(p, s[1..])
  }

  /** `Array.prototype.slice(0, n)`: the first `n` elements, or all of them when there are fewer. */
  function Take<T>(s: seq<T>, n: nat): (r: seq<T>)
    ensures |r| == if |s| <= n then |s| else n
    ensures r <= s
  {
    if |s| <= n then s else s[..n]
  }

  /** `[...new Set(s)]`: the distinct elements of `s`, each at its first occurrence. */
  function Dedup<T(==,!new)>(s: seq<T>): (r: seq<T>)
    ensures NoDup(r)
    ensures forall x :: x in r <==> x in s
    ensures |r| <= |s|
  {
    if s == [] then []
    else
      var d := Dedup(s[..|s| - 1]);
      if s[|s| - 1] in d then d else d + [s[|s| - 1]]
  }

  /** `s` is ordered by non-decreasing `key`. */
  predicate SortedByKey<T>(s: seq<T>, key: T -> int) {
    forall i, j :: 0 <= i < j < |s| ==> key(s[i]) <= key(s[j])
  }

  /** Places `x` in front of the first element whose key is not smaller than its own. */
  function Insert<T>(x: T, s: seq<T>, key: T -> int): (r: seq<T>)
    ensures |r| == |s| + 1
    ensures multiset(r) == multiset(s) + multiset{x}
  {
    if s == [] || key(x) <= key(s[0]) then [x] + s
    else
      assert s == [s[0]] + s[1..];
      [s[0]] + Insert(x, s[1..], key)
  }

  lemma {:induction false} InsertSorted<T>(x: T, s: seq<T>, key: T -> int)
    requires SortedByKey(s, key)
    ensures SortedByKey(Insert(x, s, key), key)
  {
    var r := Insert(x, s, key);
    if s == [] || key(x) <= key(s[0]) {
      assert r == [x] + s;
      forall i, j | 0 <= i < j < |r| ensures key(r[i]) <= key(r[j]) {
        if i == 0 {
          assert r[j] == s[j - 1];
          assert key(s[0]) <= key(s[j - 1]);
        } else {
          assert r[i] == s[i - 1] && r[j] == s[j - 1];
        }
      }
    } else {
      var rest := Insert(x, s[1..], key);
      assert r == [s[0]] + rest;
      assert SortedByKey(s[1..], key) by {
        forall i, j | 0 <= i < j < |s[1..]| ensures key(s[1..][i]) <= key(s[1..][j]) {
          assert s[1..][i] == s[i + 1] && s[1..][j] == s[j + 1];
        }
      }
      InsertSorted(x, s[1..], key);
      forall i, j | 0 <= i < j < |r| ensures key(r[i]) <= key(r[j]) {
        if i == 0 {
          var y := rest[j - 1];
          assert r[j] == y;
          assert y in multiset(rest);
          assert y == x || y in multiset(s[1..]);
          if y != x {
            var m :| 0 <= m < |s[1..]| && s[1..][m] == y;
            assert s[m + 1] == y;
          }
        } else {
          assert r[i] == rest[i - 1] && r[j] == rest[j - 1];
        }
      }
    }
  }

  /** The stable sort of `s` by ascending `key` (ECMAScript requires `Array.prototype.sort`
      to be stable): elements with equal keys keep their relative order. */
  function SortByKey<T>(s: seq<T>, key: T -> int): (r: seq<T>)
    ensures |r| == |s|
    ensures multiset(r) == multiset(s)
    ensures SortedByKey(r, key)
  {
    if s == [] then []
    else
      assert s == [s[0]] + s[1..];
      InsertSorted(s[0], SortByKey(s[1..], key), key);
      Insert(s[0], SortByKey(s[1..], key), key)
  }

  lemma {:induction false} FilterAppend<T(!new)>(p: T -> bool, a: seq<T>, b: seq<T>)
    ensures Filter(p, a + b) == Filter(p, a) + Filter(p, b)
  {
    if a == [] {
      assert a + b == b;
    } else {
      assert (a + b)[1..] == a[1..] + b;
      FilterAppend(p, a[1..], b);
    }
  }

  lemma FilterSnoc<T(!new)>(p: T -> bool, s: seq<T>, x: T)
    ensures Filter(p, s + [x]) == if p(x) then Filter(p, s) + [x] else Filter(p, s)
  {
    FilterAppend(p, s, [x]);
  }

  /** `filter` keeps every copy of a kept element and no copy of a dropped one. */
  lemma {:induction false} FilterMultiset<T(!new)>(p: T -> bool, s: seq<T>)
    ensures forall x :: multiset(Filter(p, s))[x] == if p(x) then multiset(s)[x] else 0
  {
    if s != [] {
      FilterMultiset(p, s[1..]);
      assert s == [s[0]] + s[1..];
    }
  }

  /** The positions of `s` whose element satisfies `p`. */
  function Positions<T>(p: T -> bool, s: seq<T>): set<int> {
    set i | 0 <= i < |s| && p(s[i])
  }

  lemma FilterHas<T(!new)>(p: T -> bool, s: seq<T>, x: T)
    requires x in s && p(x)
    ensures x in Filter(p, s)
  {
  }

  /** The length of a filter is the number of positions whose element is kept. */
  lemma {:induction false} FilterCount<T(!new)>(p: T -> bool, s: seq<T>)
    ensures |Filter(p, s)| == |Positions(p, s)|
    decreases |s|
  {
    if s != [] {
      var front := s[..|s| - 1];
      var x := s[|s| - 1];
      assert s == front + [x];
      FilterCount(p, front);
      FilterSnoc(p, front, x);
      PositionsSnoc(p, front, x);
    }
  }

  lemma PositionsSnoc<T>(p: T -> bool, s: seq<T>, x: T)
    ensures |Positions(p, s + [x])| == |Positions(p, s)| + if p(x) then 1 else 0
  {
    var before := Positions(p, s);
    var extra: set<int> := if p(x) then {|s|} else {};
    forall i ensures i in Positions(p, s + [x]) <==> i in before + extra {
      if 0 <= i < |s| {
        assert (s + [x])[i] == s[i];
      }
    }
    assert Positions(p, s + [x]) == before + extra;
    assert before !! extra;
  }

  /** Filtering with two predicates that agree on every element gives the same result. */
  lemma {:induction false} FilterExt<T(!new)>(p: T -> bool, q: T -> bool, s: seq<T>)
    requires forall x :: x in s ==> p(x) == q(x)
    ensures Filter(p, s) == Filter(q, s)
  {
    if s != [] {
      FilterExt(p, q, s[1..]);
    }
  }

  /** A filter that keeps every element is the identity. */
  lemma {:induction false} FilterKeepsAll<T(!new)>(p: T -> bool, s: seq<T>)
    requires forall x :: x in s ==> p(x)
    ensures Filter(p, s) == s
  {
    if s != [] {
      FilterKeepsAll(p, s[1..]);
    }
  }

  /** Filtering twice is filtering once with the conjunction. */
  lemma {:induction false} FilterFilter<T(!new)>(p: T -> bool, q: T -> bool, pq: T -> bool, s: seq<T>)
    requires forall x :: x in s ==> pq(x) == (p(x) && q(x))
    ensures Filter(q, Filter(p, s)) == Filter(pq, s)
  {
    if s != [] {
      FilterFilter(p, q, pq, s[1..]);
    }
  }

  lemma {:induction false} FilterNoDup<T(!new)>(p: T -> bool, s: seq<T>)
    requires NoDup(s)
    ensures NoDup(Filter(p, s))
  {
    if s != [] {
      assert NoDup(s[1..]) by {
        forall i, j | 0 <= i < j < |s[1..]| ensures s[1..][i] != s[1..][j] {
          assert s[1..][i] == s[i + 1] && s[1..][j] == s[j + 1];
        }
      }
      FilterNoDup(p, s[1..]);
      var rest := Filter(p, s[1..]);
      if p(s[0]) {
        assert s[0] !in s[1..] by {
          forall k | 0 <= k < |s[1..]| ensures s[1..][k] != s[0] {
            assert s[1..][k] == s[k + 1];
          }
        }
        var r := [s[0]] + rest;
        forall i, j | 0 <= i < j < |r| ensures r[i] != r[j] {
          if i == 0 {
            assert r[j] == rest[j - 1];
            assert r[j] in s[1..];
          } else {
            assert r[i] == rest[i - 1] && r[j] == rest[j - 1];
          }
        }
      }
    }
  }

  /** Every two elements, taken in their order in `s`, are related by `ok`. */
  predicate Pairwise<T>(s: seq<T>, ok: (T, T) -> bool) {
    forall i, j :: 0 <= i < j < |s| ==> ok(s[i], s[j])
  }

  /** Filtering keeps a pairwise relation: the kept elements keep their relative order. */
  lemma {:induction false} FilterPairwise<T(!new)>(p: T -> bool, s: seq<T>, ok: (T, T) -> bool)
    requires Pairwise(s, ok)
    ensures Pairwise(Filter(p, s), ok)
  {
    if s != [] {
      assert Pairwise(s[1..], ok) by {
        forall i, j | 0 <= i < j < |s[1..]| ensures ok(s[1..][i], s[1..][j]) {
          assert s[1..][i] == s[i + 1] && s[1..][j] == s[j + 1];
        }
      }
      FilterPairwise(p, s[1..], ok);
      var rest := Filter(p, s[1..]);
      if p(s[0]) {
        var r := [s[0]] + rest;
        forall i, j | 0 <= i < j < |r| ensures ok(r[i], r[j]) {
          if i == 0 {
            assert r[j] == rest[j - 1];
            assert r[j] in s[1..];
            var k :| 0 <= k < |s[1..]| && s[1..][k] == r[j];
            assert s[k + 1] == r[j];
          } else {
            assert r[i] == rest[i - 1] && r[j] == rest[j - 1];
          }
        }
      }
    }
  }

  /** Appending an element related to every earlier one keeps a pairwise relation. */
  lemma PairwiseSnoc<T>(s: seq<T>, x: T, ok: (T, T) -> bool)
    requires Pairwise(s, ok)
    requires forall y :: y in s ==> ok(y, x)
    ensures Pairwise(s + [x], ok)
  {
    forall i, j | 0 <= i < j < |s + [x]| ensures ok((s + [x])[i], (s + [x])[j]) {
      assert (s + [x])[i] == s[i];
      if j < |s| {
        assert (s + [x])[j] == s[j];
      } else {
        assert s[i] in s;
      }
    }
  }

  /** Filtering with a predicate no element satisfies gives the empty sequence. */
  lemma {:induction false} FilterNone<T(!new)>(p: T -> bool, s: seq<T>)
    requires forall x :: x in s ==> !p(x)
    ensures Filter(p, s) == []
  {
    if s != [] {
      FilterNone(p, s[1..]);
    }
  }

  /** The first kept element is the first element of `s` satisfying `p`. */
  lemma {:induction false} FilterFirst<T(!new)>(p: T -> bool, s: seq<T>)
    requires Filter(p, s) != []
    ensures exists k :: 0 <= k < |s| && s[k] == Filter(p, s)[0] && forall j :: 0 <= j < k ==> !p(s[j])
  {
    if !p(s[0]) {
      FilterFirst(p, s[1..]);
      var k :| 0 <= k < |s[1..]| && s[1..][k] == Filter(p, s[1..])[0] &&
        forall j :: 0 <= j < k ==> !p(s[1..][j]);
      forall j | 0 <= j < k + 1 ensures !p(s[j]) {
        if j > 0 {
          assert s[j] == s[1..][j - 1];
        }
      }
      assert s[k + 1] == Filter(p, s)[0];
    } else {
      assert s[0] == Filter(p, s)[0];
    }
  }

  /** A sequence without duplicates has as many elements as the set of its elements. */
  lemma {:induction false} NoDupCardinality<T>(s: seq<T>)
    requires NoDup(s)
    ensures |set x | x in s| == |s|
  {
    if s != [] {
      assert NoDup(s[1..]) by {
        forall i, j | 0 <= i < j < |s[1..]| ensures s[1..][i] != s[1..][j] {
          assert s[1..][i] == s[i + 1] && s[1..][j] == s[j + 1];
        }
      }
      NoDupCardinality(s[1..]);
      assert (set x | x in s) == {s[0]} + (set x | x in s[1..]) by {
        assert s == [s[0]] + s[1..];
      }
      assert s[0] !in (set x | x in s[1..]) by {
        forall k | 0 <= k < |s[1..]| ensures s[1..][k] != s[0] {
          assert s[1..][k] == s[k + 1];
        }
      }
    }
  }

  /** A prefix of a subsequence is a subsequence. */
  lemma {:induction false} SubsequencePrefix<T>(r: seq<T>, s: seq<T>, n: nat)
    requires IsSubsequence(r, s)
    requires n <= |r|
    ensures IsSubsequence(r[..n], s)
    decreases |s|
  {
    if n == 0 {
      assert r[..n] == [];
    } else if r[0] == s[0] && IsSubsequence(r[1..], s[1..]) {
      SubsequencePrefix(r[1..], s[1..], n - 1);
      assert r[..n][1..] == r[1..][..n - 1];
    } else {
      SubsequencePrefix(r, s[1..], n);
    }
  }

  lemma TakeSubsequence<T>(r: seq<T>, s: seq<T>, n: nat)
    requires IsSubsequence(r, s)
    ensures IsSubsequence(Take(r, n), s)
  {
    if n < |r| {
      SubsequencePrefix(r, s, n);
    }
  }

  /** Inserting `x` keeps, for every key value, the elements with that key in order, and
      puts `x` first among the elements whose key equals its own; `p` selects that key
      value. */
  lemma {:induction false} InsertStable<T(!new)>(x: T, s: seq<T>, key: T -> int, k: int, p: T -> bool)
    requires forall y :: p(y) == (key(y) == k)
    ensures Filter(p, Insert(x, s, key)) == (if p(x) then [x] else []) + Filter(p, s)
  {
    if s != [] && key(x) > key(s[0]) {
      var rest := Insert(x, s[1..], key);
      assert Insert(x, s, key) == [s[0]] + rest;
      InsertStable(x, s[1..], key, k, p);
      assert !(p(x) && p(s[0]));
    }
  }

  lemma FilterHead<T(!new)>(p: T -> bool, s: seq<T>)
    requires s != []
    ensures Filter(p, s) == (if p(s[0]) then [s[0]] else []) + Filter(p, s[1..])
  {
  }

  /** Filtering a prefix gives a prefix of the filtered sequence. */
  lemma FilterTakePrefix<T(!new)>(p: T -> bool, s: seq<T>, n: nat)
    ensures Filter(p, Take(s, n)) <= Filter(p, s)
  {
    if n < |s| {
      assert s == s[..n] + s[n..];
      FilterAppend(p, s[..n], s[n..]);
    }
  }

  /** Stability of `SortByKey`: for every key value, the elements carrying it appear in the
      result in exactly the order they have in the input; `p` selects that key value. */
  lemma {:induction false} SortStableBy<T(!new)>(s: seq<T>, key: T -> int, k: int, p: T -> bool)
    requires forall y :: p(y) == (key(y) == k)
    ensures Filter(p, SortByKey(s, key)) == Filter(p, s)
  {
    if s != [] {
      SortStableBy(s[1..], key, k, p);
      InsertStable(s[0], SortByKey(s[1..], key), key, k, p);
    }
  }

  /** Sorting and then keeping the first `n` elements keeps, for every key value, a prefix
      of the elements with that key in input order; `p` selects that key value. */
  lemma TakeSortedStable<T(!new)>(s: seq<T>, key: T -> int, n: nat, k: int, p: T -> bool)
    requires forall y :: p(y) == (key(y) == k)
    ensures Filter(p, Take(SortByKey(s, key), n)) <= Filter(p, s)
  {
    SortStableBy(s, key, k, p);
    FilterTakePrefix(p, SortByKey(s, key), n);
  }

  /** An element of `s` that sorting and truncating to `n` leaves out was cut off: the
      result is full and holds only elements with a key no larger than its own. */
  lemma TakeSortedTop<T>(s: seq<T>, key: T -> int, n: nat, x: T)
    requires x in s && x !in Take(SortByKey(s, key), n)
    ensures |Take(SortByKey(s, key), n)| == n
    ensures forall y :: y in Take(SortByKey(s, key), n) ==> key(y) <= key(x)
  {
    var r := SortByKey(s, key);
    assert x in multiset(s);
    TakeTop(r, key, n, x);
  }

  /** The same for a sequence that is already sorted. */
  lemma TakeTop<T>(r: seq<T>, key: T -> int, n: nat, x: T)
    requires SortedByKey(r, key) && x in r && x !in Take(r, n)
    ensures |Take(r, n)| == n
    ensures forall y :: y in Take(r, n) ==> key(y) <= key(x)
  {
    var c := Take(r, n);
    assert exists j :: |c| <= j < |r| && r[j] == x by {
      assert r == c + r[|c|..];
      assert x in r[|c|..];
      var i :| 0 <= i < |r[|c|..]| && r[|c|..][i] == x;
      assert r[|c| + i] == x;
    }
    var j :| |c| <= j < |r| && r[j] == x;
    forall y | y in c ensures key(y) <= key(x) {
      var m :| 0 <= m < |c| && c[m] == y;
      assert r[m] == y;
      SortedAt(r, key, m, j);
    }
  }

  lemma SortedAt<T>(s: seq<T>, key: T -> int, i: nat, j: nat)
    requires SortedByKey(s, key) && i < j < |s|
    ensures key(s[i]) <= key(s[j])
  {
  }

  /** `snapshot.forEach(doc => out.push(doc))`: every element, in order. */
  method CopyAll<T>(snapshot: seq<T>) returns (out: seq<T>)
    ensures out == snapshot
  {
    out := [];
    var i := 0;
    while i < |snapshot|
      invariant 0 <= i <= |snapshot|
      invariant out == snapshot[..i]
    {
      out := out + [snapshot[i]];
      i := i + 1;
    }
  }
}
