/** The array operations the catalogue and the progress display rely on:
    `Array.prototype.find`, `Array.prototype.filter` and `includes`. */
module Lists {
  import opened Wrappers

  /** `s.find(p)`: the first element satisfying `p`, or nothing. */
  function FindFirst<T>(s: seq<T>, p: T -> bool): (r: Option<T>)
    ensures r.None? <==> forall i | 0 <= i < |s| :: !p(s[i])
    ensures r.Some? ==> exists k | 0 <= k < |s| :: s[k] == r.value && p(s[k]) && IsFirstMatch(s, p, k)
  {
    if s == [] then None
    else if p(s[0]) then
      assert IsFirstMatch(s, p, 0);
      Some(s[0])
    else
      var rest := FindFirst(s[1..], p);
      assert rest.Some? ==> exists k | 0 <= k < |s| :: s[k] == rest.value && p(s[k]) && IsFirstMatch(s, p, k) by {
        if rest.Some? {
          var k :| 0 <= k < |s[1..]| && s[1..][k] == rest.value && p(s[1..][k]) && IsFirstMatch(s[1..], p, k);
          assert s[k + 1] == rest.value && IsFirstMatch(s, p, k + 1);
        }
      }
      rest
  }

  /** No element before position `k` satisfies `p`. */
  ghost predicate IsFirstMatch<T>(s: seq<T>, p: T -> bool, k: int)
    requires 0 <= k <= |s|
  {
    forall j | 0 <= j < k :: !p(s[j])
  }

  /** `r` is `s` with some elements dropped, the others kept in their order. */
  predicate IsSubsequence<T(==)>(r: seq<T>, s: seq<T>)
    decreases |s|
  {
    if r == [] then true
    else if s == [] then false
    else (r[0] == s[0] && IsSubsequence(r[1..], s[1..])) || IsSubsequence(r, s[1..])
  }

  /** `s.filter(p)`: the elements satisfying `p`, in the order of `s`. */
  function Filter<T(!new)>(s: seq<T>, p: T -> bool): (r: seq<T>)
    ensures forall x | x in r :: x in s && p(x)
    ensures forall i | 0 <= i < |s| && p(s[i]) :: s[i] in r
    ensures IsSubsequence(r, s)
    ensures |r| <= |s|
    ensures forall x :: multiset(r)[x] == if p(x) then multiset(s)[x] else 0
  {
    if s == [] then []
    else
      assert s == [s[0]] + s[1..];
      if p(s[0]) then
        var rest := Filter(s[1..], p);
        assert ([s[0]] + rest)[1..] == rest;
        [s[0]] + rest
      else Filter(s[1..], p)
  }

  /** The element positions of `s` are pairwise different. */
  predicate Distinct<T(==)>(s: seq<T>) {
    forall i, j | 0 <= i < j < |s| :: s[i] != s[j]
  }

  /** A subsequence of a list without repetitions has none either. */
  lemma {:induction false} SubsequenceOfDistinct<T>(r: seq<T>, s: seq<T>)
    requires IsSubsequence(r, s) && Distinct(s)
    ensures Distinct(r)
    decreases |s|
  {
    if r != [] {
      assert s != [];
      if r[0] == s[0] && IsSubsequence(r[1..], s[1..]) {
        SubsequenceOfDistinct(r[1..], s[1..]);
        SubsequenceElements(r[1..], s[1..]);
        forall j | 0 < j < |r| ensures r[0] != r[j] {
          assert r[j] == r[1..][j - 1];
          assert r[j] in s[1..];
        }
        forall i, j | 0 <= i < j < |r| ensures r[i] != r[j] {
          if i > 0 { assert r[i] == r[1..][i - 1] && r[j] == r[1..][j - 1]; }
        }
      } else {
        SubsequenceOfDistinct(r, s[1..]);
      }
    }
  }

  /** Every element of a subsequence is an element of the sequence. */
  lemma {:induction false} SubsequenceElements<T>(r: seq<T>, s: seq<T>)
    requires IsSubsequence(r, s)
    ensures forall x | x in r :: x in s
    decreases |s|
  {
    if r != [] {
      if r[0] == s[0] && IsSubsequence(r[1..], s[1..]) {
        SubsequenceElements(r[1..], s[1..]);
        forall x | x in r ensures x in s {
          if x != r[0] { assert x in r[1..]; }
        }
      } else {
        SubsequenceElements(r, s[1..]);
      }
    }
  }

  /** A subsequence of a list without repetitions keeps the order of that list:
      an element that comes first in the subsequence comes first in the list. */
  lemma {:induction false} SubsequenceOrder<T>(r: seq<T>, s: seq<T>, a: int, b: int, i: int, j: int)
    requires IsSubsequence(r, s) && Distinct(s)
    requires 0 <= a < b < |r| && 0 <= i < |s| && 0 <= j < |s|
    requires r[a] == s[i] && r[b] == s[j]
    ensures i < j
    decreases |s|
  {
    assert Distinct(s[1..]);
    if r[0] == s[0] && IsSubsequence(r[1..], s[1..]) {
      SubsequenceElements(r[1..], s[1..]);
      assert r[b] == r[1..][b - 1];
      assert j != 0 by { assert r[b] in s[1..]; if j == 0 { NotInTail(s); } }
      if a == 0 {
        assert i == 0;
      } else {
        assert r[a] == r[1..][a - 1];
        assert i != 0 by { assert r[a] in s[1..]; if i == 0 { NotInTail(s); } }
        SubsequenceOrder(r[1..], s[1..], a - 1, b - 1, i - 1, j - 1);
      }
    } else {
      SubsequenceElements(r, s[1..]);
      assert i != 0 by { assert r[a] in s[1..]; if i == 0 { NotInTail(s); } }
      assert j != 0 by { assert r[b] in s[1..]; if j == 0 { NotInTail(s); } }
      SubsequenceOrder(r, s[1..], a, b, i - 1, j - 1);
    }
  }

  /** The head of a list without repetitions does not occur again in its tail. */
  lemma NotInTail<T>(s: seq<T>)
    requires Distinct(s) && s != []
    ensures s[0] !in s[1..]
  {
  }

  /** A list without repetitions has as many distinct elements as positions. */
  lemma {:induction false} DistinctCardinality<T>(s: seq<T>)
    requires Distinct(s)
    ensures |set x | x in s| == |s|
  {
    if s != [] {
      assert Distinct(s[1..]);
      DistinctCardinality(s[1..]);
      NotInTail(s);
      assert (set x | x in s) == {s[0]} + (set x | x in s[1..]);
    }
  }

  /** Filtering with two predicates that agree on every element gives the same list. */
  lemma {:induction false} FilterCongruence<T(!new)>(s: seq<T>, p: T -> bool, q: T -> bool)
    requires forall i | 0 <= i < |s| :: p(s[i]) == q(s[i])
    ensures Filter(s, p) == Filter(s, q)
  {
    if s != [] {
      FilterCongruence(s[1..], p, q);
    }
  }

  /** Filtering with a predicate no element satisfies gives the empty list. */
  lemma {:induction false} FilterNone<T(!new)>(s: seq<T>, p: T -> bool)
    requires forall i | 0 <= i < |s| :: !p(s[i])
    ensures Filter(s, p) == []
  {
    if s != [] {
      FilterNone(s[1..], p);
    }
  }

  /** Two elements of a subsequence of a list without repetitions occur in it in
      the order they have in the list. */
  lemma SubsequencePrecedes<T>(r: seq<T>, s: seq<T>, i: int, j: int) returns (a: int, b: int)
    requires IsSubsequence(r, s) && Distinct(s)
    requires 0 <= i < j < |s| && s[i] in r && s[j] in r
    ensures 0 <= a < b < |r| && r[a] == s[i] && r[b] == s[j]
  {
    a :| 0 <= a < |r| && r[a] == s[i];
    b :| 0 <= b < |r| && r[b] == s[j];
    if b < a {
      SubsequenceOrder(r, s, b, a, j, i);
    }
    assert a != b;
    assert 0 <= a < b < |r| && r[a] == s[i] && r[b] == s[j];
  }
}
