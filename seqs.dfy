/** The array operations the pages use on lists of records: `filter`, `find`, a copy
    sorted newest first (`[...xs].sort((a, b) => b.date - a.date)`) and `slice(0, n)`. */
module Seqs {
  import opened Common

  /** `s.filter(p)` */
  function Filter<T(==,!new)>(s: seq<T>, p: T -> bool): (r: seq<T>)
    ensures |r| <= |s|
    ensures forall x :: multiset(r)[x] == if p(x) then multiset(s)[x] else 0
  {
    if s == [] then []
    else
      var rest := Filter(s[1..], p);
      assert s == [s[0]] + s[1..];
      if p(s[0]) then [s[0]] + rest else rest
  }

  /** r can be obtained from s by deleting elements: same relative order. */
  predicate IsSubseq<T(==)>(r: seq<T>, s: seq<T>)
    decreases |s|
  {
    if r == [] then true
    else if s == [] then false
    else (r[0] == s[0] && IsSubseq(r[1..], s[1..])) || IsSubseq(r, s[1..])
  }

  /** A filtered list keeps the order of the original. */
  lemma {:induction false} FilterIsSubseq<T(!new)>(s: seq<T>, p: T -> bool)
    ensures IsSubseq(Filter(s, p), s)
  {
    if s != [] {
      FilterIsSubseq(s[1..], p);
      var rest := Filter(s[1..], p);
      if p(s[0]) {
        assert Filter(s, p) == [s[0]] + rest;
        assert ([s[0]] + rest)[1..] == rest;
      } else {
        assert Filter(s, p) == rest;
        if rest != [] {
          assert IsSubseq(rest, s[1..]);
        }
      }
    }
  }

  /** Every element of a filtered list satisfies the predicate. */
  lemma {:induction false} FilterAll<T(!new)>(s: seq<T>, p: T -> bool)
    ensures forall i :: 0 <= i < |Filter(s, p)| ==> p(Filter(s, p)[i])
  {
    var r := Filter(s, p);
    forall i | 0 <= i < |r| ensures p(r[i]) {
      assert r[i] in multiset(r);
    }
  }

  /** Filtering with a predicate that holds everywhere returns the list itself. */
  lemma {:induction false} FilterTrue<T(!new)>(s: seq<T>, p: T -> bool)
    requires forall x :: p(x)
    ensures Filter(s, p) == s
  {
    if s != [] {
      FilterTrue(s[1..], p);
      assert s == [s[0]] + s[1..];
    }
  }

  /** Two filters with disjoint predicates keep at most as many elements as there are. */
  lemma {:induction false} FilterDisjoint<T(!new)>(s: seq<T>, p: T -> bool, q: T -> bool)
    requires forall x :: !(p(x) && q(x))
    ensures |Filter(s, p)| + |Filter(s, q)| <= |s|
  {
    if s != [] {
      FilterDisjoint(s[1..], p, q);
    }
  }

  predicate SortedDesc<T>(s: seq<T>, key: T -> int) {
    forall i, j :: 0 <= i < j < |s| ==> key(s[i]) >= key(s[j])
  }

  lemma {:induction false} SortedCons<T>(h: T, t: seq<T>, key: T -> int)
    requires SortedDesc(t, key)
    requires t != [] ==> key(h) >= key(t[0])
    ensures SortedDesc([h] + t, key)
  {
    var r := [h] + t;
    forall i, j | 0 <= i < j < |r| ensures key(r[i]) >= key(r[j]) {
      if i == 0 {
        assert r[j] == t[j - 1];
        if j > 1 {
          assert key(t[0]) >= key(t[j - 1]);
        }
      } else {
        assert r[i] == t[i - 1] && r[j] == t[j - 1];
      }
    }
  }

  /** Inserts x in front of the first element whose key is not larger. */
  function InsertDesc<T>(x: T, s: seq<T>, key: T -> int): (r: seq<T>)
    ensures |r| == |s| + 1
    ensures r[0] == x || (s != [] && r[0] == s[0])
  {
    if s == [] || key(x) >= key(s[0]) then [x] + s
    else [s[0]] + InsertDesc(x, s[1..], key)
  }

  /** Inserting adds x and nothing else. */
  lemma {:induction false} InsertDescMultiset<T>(x: T, s: seq<T>, key: T -> int)
    ensures multiset(InsertDesc(x, s, key)) == multiset(s) + multiset{x}
  {
    if s == [] || key(x) >= key(s[0]) {
      ConsMultiset(x, s);
    } else {
      InsertDescMultiset(x, s[1..], key);
      ConsMultiset(s[0], InsertDesc(x, s[1..], key));
      ConsMultiset(s[0], s[1..]);
      assert s == [s[0]] + s[1..];
    }
  }

  /** Inserting into a sequence sorted largest first keeps it sorted. */
  lemma {:induction false} InsertDescSorted<T>(x: T, s: seq<T>, key: T -> int)
    requires SortedDesc(s, key)
    ensures SortedDesc(InsertDesc(x, s, key), key)
  {
    if s == [] || key(x) >= key(s[0]) {
      SortedCons(x, s, key);
    } else {
      SortedTail(s, key);
      InsertDescSorted(x, s[1..], key);
      var tail := InsertDesc(x, s[1..], key);
      assert tail[0] == x || tail[0] == s[1];
      SortedCons(s[0], tail, key);
    }
  }

  lemma {:induction false} SortedTail<T>(s: seq<T>, key: T -> int)
    requires s != [] && SortedDesc(s, key)
    ensures SortedDesc(s[1..], key)
    ensures |s| > 1 ==> key(s[0]) >= key(s[1])
  {
    forall i, j | 0 <= i < j < |s| - 1 ensures key(s[1..][i]) >= key(s[1..][j]) {
      assert s[1..][i] == s[i + 1] && s[1..][j] == s[j + 1];
    }
  }

  lemma {:induction false} ConsMultiset<T>(h: T, t: seq<T>)
    ensures multiset([h] + t) == multiset{h} + multiset(t)
    ensures ([h] + t)[1..] == t
  {
  }

  /** An element occurring more often in s than in a prefix of s occurs after it. */
  lemma {:induction false} BeyondPrefix<T>(s: seq<T>, n: nat, x: T) returns (j: nat)
    requires n <= |s| && multiset(s)[x] > multiset(s[..n])[x]
    ensures n <= j < |s| && s[j] == x
  {
    assert s == s[..n] + s[n..];
    assert x in multiset(s[n..]);
    var k :| 0 <= k < |s[n..]| && s[n..][k] == x;
    j := n + k;
  }

  /** A copy of s ordered by key, largest first (a permutation of s). */
  function SortDesc<T>(s: seq<T>, key: T -> int): (r: seq<T>)
    ensures multiset(r) == multiset(s)
    ensures SortedDesc(r, key)
    ensures |r| == |s|
  {
    if s == [] then []
    else
      assert s == [s[0]] + s[1..];
      InsertDescSorted(s[0], SortDesc(s[1..], key), key);
      InsertDescMultiset(s[0], SortDesc(s[1..], key), key);
      InsertDesc(s[0], SortDesc(s[1..], key), key)
  }

  /** Inserting x puts it in front of every element with the same key: among the
      elements whose key is k, x comes first and the others keep their order. */
  lemma {:induction false} InsertDescTies<T(!new)>(x: T, s: seq<T>, key: T -> int, k: int, p: T -> bool)
    requires forall y :: p(y) <==> key(y) == k
    ensures Filter(InsertDesc(x, s, key), p) == (if p(x) then [x] else []) + Filter(s, p)
  {
    if s == [] || key(x) >= key(s[0]) {
      assert ([x] + s)[1..] == s;
    } else {
      InsertDescTies(x, s[1..], key, k, p);
      var t := InsertDesc(x, s[1..], key);
      assert ([s[0]] + t)[1..] == t;
      assert !(p(x) && p(s[0]));
    }
  }

  /** The sort is stable: the elements sharing one key appear in the copy in the
      order they have in s, as with `Array.prototype.sort`. */
  lemma {:induction false} SortDescStable<T(!new)>(s: seq<T>, key: T -> int, k: int, p: T -> bool)
    requires forall y :: p(y) <==> key(y) == k
    ensures Filter(SortDesc(s, key), p) == Filter(s, p)
  {
    if s != [] {
      SortDescStable(s[1..], key, k, p);
      InsertDescTies(s[0], SortDesc(s[1..], key), key, k, p);
    }
  }

  /** `s.slice(0, n)` */
  function Take<T>(s: seq<T>, n: nat): (r: seq<T>)
    ensures |r| == if |s| < n then |s| else n
    ensures r == s[..|r|]
  {
    if |s| <= n then s else s[..n]
  }

  /** The first index at or after `from` whose element satisfies p. */
  function FindFrom<T>(s: seq<T>, p: T -> bool, from: nat): (r: Option<nat>)
    decreases |s| - from
    ensures r.Some? ==> from <= r.value < |s| && p(s[r.value])
    ensures r.Some? ==> forall k :: from <= k < r.value ==> !p(s[k])
    ensures r.None? ==> forall k :: from <= k < |s| ==> !p(s[k])
  {
    if from >= |s| then None
    else if p(s[from]) then Some(from)
    else FindFrom(s, p, from + 1)
  }

  /** `s.findIndex(p)`, or `s.find(p)` read as a position: the first element satisfying p. */
  function FindFirst<T>(s: seq<T>, p: T -> bool): (r: Option<nat>)
    ensures r.Some? ==> r.value < |s| && p(s[r.value]) && forall k :: 0 <= k < r.value ==> !p(s[k])
    ensures r.None? ==> forall k :: 0 <= k < |s| ==> !p(s[k])
  {
    FindFrom(s, p, 0)
  }
}
