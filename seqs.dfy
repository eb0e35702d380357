/** Sequence helpers standing in for the JavaScript array built-ins the tracker uses:
    `filter`, `includes`, `findIndex`, `map`, and `[...new Set(xs)]`. */
module Seqs {

  datatype Option<T> = None | Some(value: T)

  /** A call that either returns a value or throws an `Error` with a message. */
  datatype Result<T> = Ok(value: T) | Err(error: string)

  /** No element occurs twice. */
  predicate NoDup<T(==)>(s: seq<T>) {
    forall i, j :: 0 <= i < j < |s| ==> s[i] != s[j]
  }

  /** r is obtained from s by deleting some elements (order is kept). */
  predicate IsSubseq<T(==)>(r: seq<T>, s: seq<T>)
    decreases |s|
  {
    r == [] ||
    (s != [] &&
     ((r[|r| - 1] == s[|s| - 1] && IsSubseq(r[..|r| - 1], s[..|s| - 1])) ||
      IsSubseq(r, s[..|s| - 1])))
  }

  /** `s.filter(p)`: the elements of s satisfying p, in the order of s, with their multiplicities. */
  function Filter<T(==)>(s: seq<T>, p: T -> bool): (r: seq<T>)
    ensures |r| <= |s|
    ensures forall i :: 0 <= i < |r| ==> r[i] in s && p(r[i])
    ensures forall i :: 0 <= i < |s| && p(s[i]) ==> s[i] in r
  {
    if s == [] then []
    else
      var r := Filter(s[..|s| - 1], p);
      assert forall i :: 0 <= i < |s| - 1 ==> s[i] == s[..|s| - 1][i];
      if p(s[|s| - 1]) then r + [s[|s| - 1]] else r
  }

  /** `[...new Set(s)]`: each value once, in order of first appearance. */
  function Distinct<T(==)>(s: seq<T>): (r: seq<T>)
    ensures NoDup(r)
    ensures forall i :: 0 <= i < |r| ==> r[i] in s
    ensures forall i :: 0 <= i < |s| ==> s[i] in r
    ensures |r| <= |s|
  {
    if s == [] then []
    else
      var r := Distinct(s[..|s| - 1]);
      assert forall i :: 0 <= i < |s| - 1 ==> s[i] == s[..|s| - 1][i];
      if s[|s| - 1] in r then r else r + [s[|s| - 1]]
  }

  /** Position of the first occurrence of x in s, or |s| when x does not occur. */
  function IndexOf<T(==)>(s: seq<T>, x: T): (k: nat)
    ensures k <= |s|
    ensures k < |s| <==> x in s
    ensures k < |s| ==> s[k] == x
    ensures forall j :: 0 <= j < k ==> s[j] != x
  {
    if s == [] then 0
    else if s[0] == x then 0
    else 1 + IndexOf(s[1..], x)
  }

  /** `s.findIndex(v => v === x)`: the first index holding x, or -1. */
  function FindIndex<T(==)>(s: seq<T>, x: T): (k: int)
    ensures -1 <= k < |s|
    ensures k == -1 <==> x !in s
    ensures 0 <= k ==> s[k] == x && forall j :: 0 <= j < k ==> s[j] != x
  {
    var i := IndexOf(s, x);
    if i < |s| then i else -1
  }

  /** `s.map(f)`. */
  function Map<T, U>(s: seq<T>, f: T -> U): (r: seq<U>)
    ensures |r| == |s|
    ensures forall i :: 0 <= i < |s| ==> r[i] == f(s[i])
  {
    seq(|s|, i requires 0 <= i < |s| => f(s[i]))
  }

  /** The set of the elements of s. */
  function Elems<T(==)>(s: seq<T>): set<T>
  {
    set x | x in s
  }

  /** `s.filter(y => y !== x)`: s with every occurrence of x removed. */
  function Without<T(==,!new)>(s: seq<T>, x: T): (r: seq<T>)
    ensures x !in r
    ensures forall y :: y != x ==> (y in r <==> y in s)
    ensures IsSubseq(r, s)
  {
    FilterIsSubseq(s, (y: T) => y != x);
    Filter(s, (y: T) => y != x)
  }

  // ---------------------------------------------------------------- lemmas

  /** `filter` keeps every selected value as often as it occurs and drops the others. */
  lemma {:induction false} FilterMultiplicity<T>(s: seq<T>, p: T -> bool, x: T)
    ensures multiset(Filter(s, p))[x] == if p(x) then multiset(s)[x] else 0
  {
    if s != [] {
      var s' := s[..|s| - 1];
      FilterMultiplicity(s', p, x);
      assert s == s' + [s[|s| - 1]];
    }
  }

  /** `filter` keeps the order of the input. */
  lemma {:induction false} FilterIsSubseq<T>(s: seq<T>, p: T -> bool)
    ensures IsSubseq(Filter(s, p), s)
  {
    if s != [] {
      var s' := s[..|s| - 1];
      FilterIsSubseq(s', p);
      var r := Filter(s, p);
      if p(s[|s| - 1]) {
        assert r[..|r| - 1] == Filter(s', p);
      }
    }
  }

  /** Filtering with a predicate every element satisfies changes nothing. */
  lemma {:induction false} FilterKeepsAll<T>(s: seq<T>, p: T -> bool)
    requires forall i :: 0 <= i < |s| ==> p(s[i])
    ensures Filter(s, p) == s
  {
    if s != [] {
      var s' := s[..|s| - 1];
      assert forall i :: 0 <= i < |s'| ==> s'[i] == s[i];
      FilterKeepsAll(s', p);
      assert s == s' + [s[|s| - 1]];
    }
  }

  /** Deleting elements from a duplicate-free sequence leaves it duplicate-free. */
  lemma {:induction false} SubseqNoDup<T>(r: seq<T>, s: seq<T>)
    requires IsSubseq(r, s) && NoDup(s)
    ensures NoDup(r)
    ensures forall x :: x in r ==> x in s
    decreases |s|
  {
    if r != [] {
      var s' := s[..|s| - 1];
      assert NoDup(s');
      if r[|r| - 1] == s[|s| - 1] && IsSubseq(r[..|r| - 1], s') {
        var r' := r[..|r| - 1];
        SubseqNoDup(r', s');
        assert s[|s| - 1] !in s';
        assert r == r' + [r[|r| - 1]];
        forall i, j | 0 <= i < j < |r| ensures r[i] != r[j] {
          if j < |r| - 1 {
            assert r[i] == r'[i] && r[j] == r'[j];
          } else {
            assert r[i] in r';
          }
        }
      } else {
        SubseqNoDup(r, s');
      }
    }
  }

  /** Mapping a function over a subsequence gives a subsequence of the mapped sequence. */
  lemma {:induction false} SubseqMap<T, U>(r: seq<T>, s: seq<T>, f: T -> U)
    requires IsSubseq(r, s)
    ensures IsSubseq(Map(r, f), Map(s, f))
    decreases |s|
  {
    if r != [] {
      var s' := s[..|s| - 1];
      assert Map(s, f)[..|s| - 1] == Map(s', f);
      if r[|r| - 1] == s[|s| - 1] && IsSubseq(r[..|r| - 1], s') {
        SubseqMap(r[..|r| - 1], s', f);
        assert Map(r, f)[..|r| - 1] == Map(r[..|r| - 1], f);
      } else {
        SubseqMap(r, s', f);
      }
    }
  }

  /** A duplicate-free sequence has as many distinct elements as it has positions. */
  lemma {:induction false} NoDupCard<T>(s: seq<T>)
    requires NoDup(s)
    ensures |Elems(s)| == |s|
  {
    if s != [] {
      var s' := s[..|s| - 1];
      assert NoDup(s');
      NoDupCard(s');
      assert s[|s| - 1] !in s';
      assert Elems(s) == Elems(s') + {s[|s| - 1]};
    }
  }

  /** A sequence has at most as many distinct elements as positions. */
  lemma {:induction false} ElemsCard<T>(s: seq<T>)
    ensures |Elems(s)| <= |s|
  {
    if s != [] {
      var s' := s[..|s| - 1];
      ElemsCard(s');
      assert Elems(s) == Elems(s') + {s[|s| - 1]};
    }
  }

  /** The first distinct value is the first value. */
  lemma {:induction false} DistinctHead<T>(s: seq<T>)
    requires s != []
    ensures Distinct(s) != [] && Distinct(s)[0] == s[0]
  {
    if |s| > 1 {
      var s' := s[..|s| - 1];
      DistinctHead(s');
    }
  }

  /** Distinct values come in the order of their first appearance in s. */
  lemma {:induction false} DistinctOrder<T>(s: seq<T>)
    ensures forall i, j :: 0 <= i < j < |Distinct(s)| ==>
      IndexOf(s, Distinct(s)[i]) < IndexOf(s, Distinct(s)[j])
  {
    if s != [] {
      var s' := s[..|s| - 1];
      var x := s[|s| - 1];
      DistinctOrder(s');
      var r' := Distinct(s');
      forall y | y in s' ensures IndexOf(s, y) == IndexOf(s', y) {
        IndexOfPrefix(s', [x], y);
        assert s == s' + [x];
      }
      if x !in r' {
        assert IndexOf(s, x) == |s'| by {
          assert x !in s';
          assert s == s' + [x];
        }
      }
    }
  }

  /** Appending does not move the first occurrence of an element already present. */
  lemma {:induction false} IndexOfPrefix<T>(s: seq<T>, t: seq<T>, x: T)
    requires x in s
    ensures IndexOf(s + t, x) == IndexOf(s, x)
  {
    if s[0] != x {
      assert (s + t)[1..] == s[1..] + t;
      IndexOfPrefix(s[1..], t, x);
    }
  }

  /** There is exactly one distinct value iff s is non-empty and constant. */
  lemma {:induction false} DistinctSingleton<T>(s: seq<T>)
    ensures |Distinct(s)| == 1 <==> (s != [] && forall i :: 0 <= i < |s| ==> s[i] == s[0])
  {
    var r := Distinct(s);
    if s != [] && forall i :: 0 <= i < |s| ==> s[i] == s[0] {
      DistinctHead(s);
      assert forall i :: 0 <= i < |r| ==> r[i] == s[0];
      NoDupCard(r);
      assert Elems(r) == {s[0]};
    }
    if |r| == 1 {
      assert s != [];
      DistinctHead(s);
      forall i | 0 <= i < |s| ensures s[i] == s[0] {
        assert s[i] in r;
        assert forall y :: y in r ==> y == r[0];
      }
    }
  }

  /** Putting x in front shifts every element of s one place up. */
  lemma PrependFacts<T>(x: T, s: seq<T>, m: nat)
    requires m <= |s|
    ensures ([x] + s)[m + 1..] == s[m..]
    ensures forall j :: 0 <= j < |s| ==> ([x] + s)[j + 1] == s[j]
  {
  }

  /** Appending x to s appends x to the distinct values exactly when x is new. */
  lemma DistinctAppend<T>(s: seq<T>, x: T)
    ensures Distinct(s + [x]) == if x in Distinct(s) then Distinct(s) else Distinct(s) + [x]
  {
    assert (s + [x])[..|s|] == s;
  }

  /** Keeping a last element that both sequences end with keeps a subsequence. */
  lemma SubseqAppend<T>(r: seq<T>, s: seq<T>, x: T)
    requires IsSubseq(r, s)
    ensures IsSubseq(r + [x], s + [x]) && IsSubseq(r, s + [x])
  {
    assert (r + [x])[..|r|] == r;
    assert (s + [x])[..|s|] == s;
  }

  /** One more entry in front of a list built by putting entries in front of `base`: the
      length grows by one, `base` stays at the bottom, and the entry placed k-th stays
      m - k places from the top. */
  lemma PrependIndex<T>(top: T, prev: seq<T>, base: seq<T>, m: nat, k: nat, e: T)
    requires |prev| == |base| + m && prev[m..] == base
    requires k <= m
    requires k < m ==> prev[m - 1 - k] == e
    requires k == m ==> top == e
    ensures |[top] + prev| == |base| + m + 1 && ([top] + prev)[m + 1..] == base && ([top] + prev)[m - k] == e
  {
    assert ([top] + prev)[m + 1..] == prev[m..];
  }

  /** Appending an absent x and then removing it gives back s. */
  lemma AppendThenWithout<T(!new)>(s: seq<T>, x: T)
    requires x !in s
    ensures Without(s + [x], x) == s
  {
    assert (s + [x])[..|s|] == s;
    FilterKeepsAll(s, (y: T) => y != x);
  }

  /** Removing x drops all its occurrences and keeps every other element as often as it was. */
  lemma WithoutCounts<T(!new)>(s: seq<T>, x: T, y: T)
    ensures multiset(Without(s, x))[y] == if y == x then 0 else multiset(s)[y]
  {
    FilterMultiplicity(s, (z: T) => z != x, y);
  }
}
