/** The order of strings and sorting, as used by ordered sets and `sort_by` on bytes. */
module Ordering {

  /** Lexicographic `<=` on strings. */
  predicate Below(a: string, b: string) {
    a == [] || (b != [] && (a[0] < b[0] || (a[0] == b[0] && Below(a[1..], b[1..]))))
  }

  lemma {:induction false} BelowIsTotal(a: string, b: string)
    ensures Below(a, b) || Below(b, a)
  {
    if a != [] && b != [] && a[0] == b[0] {
      BelowIsTotal(a[1..], b[1..]);
    }
  }

  lemma {:induction false} BelowIsAntisymmetric(a: string, b: string)
    requires Below(a, b) && Below(b, a)
    ensures a == b
  {
    if a != [] && b != [] {
      BelowIsAntisymmetric(a[1..], b[1..]);
      assert a == [a[0]] + a[1..] && b == [b[0]] + b[1..];
    }
  }

  lemma {:induction false} BelowIsTransitive(a: string, b: string, c: string)
    requires Below(a, b) && Below(b, c)
    ensures Below(a, c)
  {
    if a != [] && a[0] == b[0] == c[0] {
      BelowIsTransitive(a[1..], b[1..], c[1..]);
    }
  }

  /** Every element is `<=` its neighbour. */
  predicate Sorted(xs: seq<string>) {
    forall i :: 0 < i < |xs| ==> Below(xs[i - 1], xs[i])
  }

  predicate Distinct(xs: seq<string>) {
    forall i, j :: 0 <= i < j < |xs| ==> xs[i] != xs[j]
  }

  function Elements(xs: seq<string>): set<string> {
    set x | x in xs
  }

  function Insert(x: string, ys: seq<string>): seq<string> {
    if ys == [] then [x]
    else if Below(x, ys[0]) then [x] + ys
    else [ys[0]] + Insert(x, ys[1..])
  }

  function Sort(xs: seq<string>): seq<string> {
    if xs == [] then [] else Insert(xs[0], Sort(xs[1..]))
  }

  lemma {:induction false} InsertKeeps(x: string, ys: seq<string>)
    ensures multiset(Insert(x, ys)) == multiset([x]) + multiset(ys)
    ensures Sorted(ys) ==> Sorted(Insert(x, ys))
    ensures |Insert(x, ys)| == |ys| + 1
  {
    if ys != [] && !Below(x, ys[0]) {
      var rest := Insert(x, ys[1..]);
      InsertKeeps(x, ys[1..]);
      assert ys == [ys[0]] + ys[1..];
      BelowIsTotal(x, ys[0]);
      if Sorted(ys) {
        assert rest[0] == x || (|ys| > 1 && rest[0] == ys[1]);
        forall i | 0 < i < |ys| + 1 ensures Below(([ys[0]] + rest)[i - 1], ([ys[0]] + rest)[i]) {
          if i > 1 {
            assert Below(rest[i - 2], rest[i - 1]);
          }
        }
      }
    }
  }

  /** Sorting permutes its input and leaves it in order. */
  lemma {:induction false} SortSorts(xs: seq<string>)
    ensures multiset(Sort(xs)) == multiset(xs)
    ensures Sorted(Sort(xs))
  {
    if xs != [] {
      SortSorts(xs[1..]);
      InsertKeeps(xs[0], Sort(xs[1..]));
      assert xs == [xs[0]] + xs[1..];
    }
  }

  lemma {:induction false} HeadIsLeast(xs: seq<string>, k: nat)
    requires Sorted(xs) && k < |xs|
    ensures Below(xs[0], xs[k])
  {
    if k == 0 {
      BelowIsTotal(xs[0], xs[0]);
    } else {
      HeadIsLeast(xs, k - 1);
      BelowIsTransitive(xs[0], xs[k - 1], xs[k]);
    }
  }

  lemma HeadIsLeastMember(xs: seq<string>, x: string)
    requires Sorted(xs) && x in xs
    ensures Below(xs[0], x)
  {
    var k :| 0 <= k < |xs| && xs[k] == x;
    HeadIsLeast(xs, k);
  }

  lemma TailMultiset(xs: seq<string>)
    requires xs != []
    ensures multiset(xs[1..]) == multiset(xs) - multiset{xs[0]}
  {
    assert xs == [xs[0]] + xs[1..];
  }

  /** There is only one sorted arrangement of a given multiset. */
  lemma {:induction false} SortedIsUnique(a: seq<string>, b: seq<string>)
    requires Sorted(a) && Sorted(b) && multiset(a) == multiset(b)
    ensures a == b
    decreases |a|
  {
    assert |a| == |multiset(a)| == |multiset(b)| == |b|;
    if a != [] {
      assert a[0] in multiset(b) && b[0] in multiset(a);
      HeadIsLeastMember(b, a[0]);
      HeadIsLeastMember(a, b[0]);
      BelowIsAntisymmetric(a[0], b[0]);
      TailMultiset(a);
      TailMultiset(b);
      SortedIsUnique(a[1..], b[1..]);
      assert a == [a[0]] + a[1..] && b == [b[0]] + b[1..];
    }
  }

  /** Sorting a sorted list changes nothing. */
  lemma SortIsIdempotent(xs: seq<string>)
    requires Sorted(xs)
    ensures Sort(xs) == xs
  {
    SortSorts(xs);
    SortedIsUnique(Sort(xs), xs);
  }

  lemma {:induction false} DistinctCounts(xs: seq<string>)
    requires Distinct(xs)
    ensures forall x :: multiset(xs)[x] == if x in xs then 1 else 0
  {
    if xs != [] {
      var tail := xs[1..];
      assert xs == [xs[0]] + tail;
      assert xs[0] !in tail;
      DistinctCounts(tail);
      forall x ensures multiset(xs)[x] == if x in xs then 1 else 0 {
        assert multiset(xs)[x] == multiset([xs[0]])[x] + multiset(tail)[x];
      }
    }
  }

  /** Duplicate-free lists sort alike exactly when they hold the same elements. */
  lemma SortOfDistinct(a: seq<string>, b: seq<string>)
    requires Distinct(a) && Distinct(b)
    ensures Sort(a) == Sort(b) <==> Elements(a) == Elements(b)
  {
    SortSorts(a);
    SortSorts(b);
    if Elements(a) == Elements(b) {
      DistinctCounts(a);
      DistinctCounts(b);
      forall x ensures multiset(a)[x] == multiset(b)[x] {
        assert x in a <==> x in Elements(a);
        assert x in b <==> x in Elements(b);
      }
      assert multiset(a) == multiset(b);
      SortedIsUnique(Sort(a), Sort(b));
    }
    if Sort(a) == Sort(b) {
      forall x ensures x in Elements(a) <==> x in Elements(b) {
        assert x in a <==> x in multiset(a);
        assert x in b <==> x in multiset(b);
      }
    }
  }

  lemma {:induction false} CountingElements(xs: seq<string>)
    ensures |Elements(xs)| <= |xs|
    ensures |Elements(xs)| == |xs| <==> Distinct(xs)
  {
    if xs == [] {
      assert Elements(xs) == {};
    } else {
      var tail := xs[1..];
      CountingElements(tail);
      assert Elements(xs) == {xs[0]} + Elements(tail);
      if xs[0] in tail {
        var k :| 0 <= k < |tail| && tail[k] == xs[0];
        assert xs[0] == xs[k + 1];
        assert Elements(xs) == Elements(tail);
      } else {
        assert |Elements(xs)| == 1 + |Elements(tail)|;
        if Distinct(tail) {
          forall i, j | 0 <= i < j < |xs| ensures xs[i] != xs[j] {
            assert xs[j] == tail[j - 1];
            if i > 0 { assert xs[i] == tail[i - 1]; }
          }
        }
        if Distinct(xs) {
          forall i, j | 0 <= i < j < |tail| ensures tail[i] != tail[j] {
            assert tail[i] == xs[i + 1] && tail[j] == xs[j + 1];
          }
        }
      }
    }
  }

  lemma SortKeepsElements(xs: seq<string>)
    ensures Elements(Sort(xs)) == Elements(xs)
    ensures |Sort(xs)| == |xs|
    ensures Distinct(xs) ==> Distinct(Sort(xs))
  {
    SortSorts(xs);
    forall x ensures x in Elements(Sort(xs)) <==> x in Elements(xs) {
      assert x in xs <==> x in multiset(xs);
      assert x in Sort(xs) <==> x in multiset(Sort(xs));
    }
    assert |Sort(xs)| == |multiset(Sort(xs))| == |multiset(xs)| == |xs|;
    CountingElements(xs);
    CountingElements(Sort(xs));
  }
}
