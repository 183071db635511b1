/**
 * `Array.prototype.filter`, `map`, `some` and a stable `sort` on sequences,
 * with the facts about them the other modules use.
 */
module Seqs {

  /** `xs.filter(p)`: the elements satisfying `p`, in their original order. */
  function Filter<T>(xs: seq<T>, p: T -> bool): (r: seq<T>)
    ensures |r| <= |xs|
    ensures forall i :: 0 <= i < |r| ==> r[i] in xs && p(r[i])
    ensures forall i :: 0 <= i < |xs| && p(xs[i]) ==> xs[i] in r
  {
    if xs == [] then [] else (if p(xs[0]) then [xs[0]] else []) + Filter(xs[1..], p)
  }

  /** Filtering distributes over concatenation, so it keeps the input order. */
  lemma {:induction false} FilterAppend<T>(a: seq<T>, b: seq<T>, p: T -> bool)
    ensures Filter(a + b, p) == Filter(a, p) + Filter(b, p)
  {
    if a == [] {
      assert a + b == b;
    } else {
      assert (a + b)[1..] == a[1..] + b;
      FilterAppend(a[1..], b, p);
    }
  }

  /** Every element is kept exactly when all of them satisfy `p`. */
  lemma {:induction false} FilterKeepsAll<T>(xs: seq<T>, p: T -> bool)
    requires forall i :: 0 <= i < |xs| ==> p(xs[i])
    ensures Filter(xs, p) == xs
  {
    if xs != [] {
      FilterKeepsAll(xs[1..], p);
    }
  }

  /** Nothing is kept when no element satisfies `p`. */
  lemma {:induction false} FilterKeepsNone<T>(xs: seq<T>, p: T -> bool)
    requires forall i :: 0 <= i < |xs| ==> !p(xs[i])
    ensures Filter(xs, p) == []
  {
    if xs != [] {
      FilterKeepsNone(xs[1..], p);
    }
  }

  /** A relation that holds between every earlier and later element still holds after filtering. */
  lemma {:induction false} FilterPairwise<T>(xs: seq<T>, p: T -> bool, rel: (T, T) -> bool)
    requires forall i, j :: 0 <= i < j < |xs| ==> rel(xs[i], xs[j])
    ensures forall i, j :: 0 <= i < j < |Filter(xs, p)| ==> rel(Filter(xs, p)[i], Filter(xs, p)[j])
  {
    if xs != [] {
      var tail := xs[1..];
      assert forall i, j :: 0 <= i < j < |tail| ==> rel(tail[i], tail[j]) by {
        forall i, j | 0 <= i < j < |tail| ensures rel(tail[i], tail[j]) {
          assert tail[i] == xs[i + 1] && tail[j] == xs[j + 1];
        }
      }
      FilterPairwise(tail, p, rel);
      var ft := Filter(tail, p);
      if p(xs[0]) {
        var r := Filter(xs, p);
        assert r == [xs[0]] + ft;
        forall i, j | 0 <= i < j < |r| ensures rel(r[i], r[j]) {
          if i == 0 {
            assert r[j] == ft[j - 1] && ft[j - 1] in tail;
            var k :| 0 <= k < |tail| && tail[k] == ft[j - 1];
            assert tail[k] == xs[k + 1];
          } else {
            assert r[i] == ft[i - 1] && r[j] == ft[j - 1];
          }
        }
      }
    }
  }

  /** `xs.map(f)` */
  function Map<T, U>(xs: seq<T>, f: T -> U): (r: seq<U>)
    ensures |r| == |xs|
    ensures forall i :: 0 <= i < |xs| ==> r[i] == f(xs[i])
  {
    if xs == [] then [] else [f(xs[0])] + Map(xs[1..], f)
  }

  lemma {:induction false} MapAppend<T, U>(a: seq<T>, b: seq<T>, f: T -> U)
    ensures Map(a + b, f) == Map(a, f) + Map(b, f)
  {
    assert |Map(a + b, f)| == |Map(a, f) + Map(b, f)|;
    forall i | 0 <= i < |a + b|
      ensures Map(a + b, f)[i] == (Map(a, f) + Map(b, f))[i]
    {
      if i < |a| {
        assert (a + b)[i] == a[i];
      } else {
        assert (a + b)[i] == b[i - |a|];
      }
    }
  }

  /** A kept element placed in front comes out first. */
  lemma MapFilterCons<T, U>(x: T, xs: seq<T>, p: T -> bool, f: T -> U)
    requires p(x)
    ensures Map(Filter([x] + xs, p), f) == [f(x)] + Map(Filter(xs, p), f)
  {
    assert ([x] + xs)[1..] == xs;
    assert Filter([x] + xs, p) == [x] + Filter(xs, p);
  }

  /** The elements in the opposite order. */
  function Reverse<T>(xs: seq<T>): (r: seq<T>)
    ensures |r| == |xs|
    ensures forall i :: 0 <= i < |xs| ==> r[i] == xs[|xs| - 1 - i]
  {
    if xs == [] then [] else Reverse(xs[1..]) + [xs[0]]
  }

  /** An element appended at the end comes first once reversed. */
  lemma ReverseSnoc<T>(xs: seq<T>, x: T)
    ensures Reverse(xs + [x]) == [x] + Reverse(xs)
  {
    var r := Reverse(xs + [x]);
    assert forall i :: 0 <= i < |r| ==> r[i] == ([x] + Reverse(xs))[i];
  }

  /** `xs.some(p)` */
  function Any<T>(xs: seq<T>, p: T -> bool): (r: bool)
    ensures r <==> exists i :: 0 <= i < |xs| && p(xs[i])
  {
    if xs == [] then false
    else if p(xs[0]) then true
    else
      assert forall i :: 0 < i < |xs| ==> xs[i] == xs[1..][i - 1];
      Any(xs[1..], p)
  }

  /** `xs.findIndex(p)` with `-1` as `None`: the first index whose element satisfies `p`. */
  function FindIndex<T>(xs: seq<T>, p: T -> bool): (r: int)
    ensures -1 <= r < |xs|
    ensures r >= 0 ==> p(xs[r]) && forall j :: 0 <= j < r ==> !p(xs[j])
    ensures r == -1 <==> forall j :: 0 <= j < |xs| ==> !p(xs[j])
  {
    if xs == [] then -1
    else if p(xs[0]) then 0
    else
      var k := FindIndex(xs[1..], p);
      assert forall j :: 0 < j < |xs| ==> xs[j] == xs[1..][j - 1];
      if k == -1 then -1 else k + 1
  }

  // ---------------------------------------------------------------------
  // `xs.slice().sort(cmp)`: ECMAScript's sort is stable, so it is modelled as
  // a stable insertion sort under the order `le` that `cmp` induces.
  // ---------------------------------------------------------------------

  ghost predicate TotalPreorder<T(!new)>(le: (T, T) -> bool)
  {
    && (forall a, b :: le(a, b) || le(b, a))
    && (forall a, b, c :: le(a, b) && le(b, c) ==> le(a, c))
  }

  ghost predicate Sorted<T>(xs: seq<T>, le: (T, T) -> bool)
  {
    forall i, j :: 0 <= i < j < |xs| ==> le(xs[i], xs[j])
  }

  /** Puts `x` before the first element it is at most, after every element it is not. */
  function Insert<T>(x: T, xs: seq<T>, le: (T, T) -> bool): (r: seq<T>)
    ensures |r| == |xs| + 1
    ensures multiset(r) == multiset(xs) + multiset{x}
  {
    if xs == [] then [x]
    else if le(x, xs[0]) then [x] + xs
    else
      var r := [xs[0]] + Insert(x, xs[1..], le);
      assert xs == [xs[0]] + xs[1..];
      r
  }

  function Sort<T>(xs: seq<T>, le: (T, T) -> bool): seq<T>
  {
    if xs == [] then [] else Insert(xs[0], Sort(xs[1..], le), le)
  }

  lemma {:induction false} InsertSorted<T(!new)>(x: T, xs: seq<T>, le: (T, T) -> bool)
    requires TotalPreorder(le) && Sorted(xs, le)
    ensures Sorted(Insert(x, xs, le), le)
  {
    if xs != [] && !le(x, xs[0]) {
      var tail := xs[1..];
      InsertSorted(x, tail, le);
      var r := Insert(x, tail, le);
      assert multiset(r) == multiset(tail) + multiset{x};
      forall j | 0 <= j < |r| ensures le(xs[0], r[j]) {
        assert r[j] in multiset(r);
        if r[j] == x {
          assert le(xs[0], x);
        } else {
          assert r[j] in multiset(tail);
          var k :| 0 <= k < |tail| && tail[k] == r[j];
          assert tail[k] == xs[k + 1];
        }
      }
    }
  }

  /** The sorted sequence is ordered by `le` and is a permutation of the input. */
  lemma {:induction false} SortCorrect<T(!new)>(xs: seq<T>, le: (T, T) -> bool)
    requires TotalPreorder(le)
    ensures Sorted(Sort(xs, le), le)
    ensures multiset(Sort(xs, le)) == multiset(xs)
    ensures |Sort(xs, le)| == |xs|
  {
    SortPermutes(xs, le);
    SortSorted(xs, le);
  }

  lemma {:induction false} SortSorted<T(!new)>(xs: seq<T>, le: (T, T) -> bool)
    requires TotalPreorder(le)
    ensures Sorted(Sort(xs, le), le)
  {
    if xs != [] {
      SortSorted(xs[1..], le);
      InsertSorted(xs[0], Sort(xs[1..], le), le);
    }
  }

  lemma {:induction false} SortPermutes<T>(xs: seq<T>, le: (T, T) -> bool)
    ensures multiset(Sort(xs, le)) == multiset(xs)
    ensures |Sort(xs, le)| == |xs|
  {
    if xs != [] {
      SortPermutes(xs[1..], le);
      assert xs == [xs[0]] + xs[1..];
    }
  }
}
