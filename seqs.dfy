/** Sequence helpers shared by the tables and caches: order-preserving filtering, reversal and
    sequences without repeated elements. */
module Seqs {

  /** The elements of `s` that satisfy `keep`, in their order (a list comprehension with a
      condition, or a `DELETE ... WHERE NOT keep` on rows kept in insertion order). */
  function Filter<T>(s: seq<T>, keep: T -> bool): (r: seq<T>)
    ensures |r| <= |s|
  {
    if s == [] then [] else (if keep(s[0]) then [s[0]] else []) + Filter(s[1..], keep)
  }

  lemma {:induction false} FilterMembers<T>(s: seq<T>, keep: T -> bool)
    ensures forall x :: x in Filter(s, keep) ==> x in s && keep(x)
    ensures forall x :: x in s && keep(x) ==> x in Filter(s, keep)
  {
    if s != [] {
      FilterMembers(s[1..], keep);
      assert s == [s[0]] + s[1..];
    }
  }

  lemma {:induction false} FilterAppend<T>(a: seq<T>, b: seq<T>, keep: T -> bool)
    ensures Filter(a + b, keep) == Filter(a, keep) + Filter(b, keep)
  {
    if a != [] {
      var head := if keep(a[0]) then [a[0]] else [];
      calc {
        Filter(a + b, keep);
        { assert (a + b)[0] == a[0] && (a + b)[1..] == a[1..] + b; }
        head + Filter(a[1..] + b, keep);
        { FilterAppend(a[1..], b, keep); }
        head + (Filter(a[1..], keep) + Filter(b, keep));
        (head + Filter(a[1..], keep)) + Filter(b, keep);
        Filter(a, keep) + Filter(b, keep);
      }
    } else {
      assert a + b == b;
    }
  }

  /** Filtering with two tests that agree on every element gives the same result. */
  lemma {:induction false} FilterAgree<T>(s: seq<T>, f: T -> bool, g: T -> bool)
    requires forall i :: 0 <= i < |s| ==> f(s[i]) == g(s[i])
    ensures Filter(s, f) == Filter(s, g)
  {
    if s != [] {
      FilterAgree(s[1..], f, g);
    }
  }

  /** Every element is kept by a filter or by its complement, so the two lengths add up. */
  lemma {:induction false} FilterSplit<T>(s: seq<T>, keep: T -> bool, drop: T -> bool)
    requires forall i :: 0 <= i < |s| ==> drop(s[i]) == !keep(s[i])
    ensures |Filter(s, keep)| + |Filter(s, drop)| == |s|
  {
    if s != [] {
      FilterSplit(s[1..], keep, drop);
    }
  }

  /** Two filters applied one after the other, in either order. */
  lemma {:induction false} FilterCommutes<T>(s: seq<T>, f: T -> bool, g: T -> bool)
    ensures Filter(Filter(s, f), g) == Filter(Filter(s, g), f)
  {
    if s != [] {
      FilterCommutes(s[1..], f, g);
      FilterAppend(if f(s[0]) then [s[0]] else [], Filter(s[1..], f), g);
      FilterAppend(if g(s[0]) then [s[0]] else [], Filter(s[1..], g), f);
    }
  }

  function Reverse<T>(s: seq<T>): (r: seq<T>)
    ensures |r| == |s| && forall i :: 0 <= i < |s| ==> r[i] == s[|s| - 1 - i]
  {
    if s == [] then [] else Reverse(s[1..]) + [s[0]]
  }

  lemma ReverseReverse<T>(s: seq<T>)
    ensures Reverse(Reverse(s)) == s
  {
  }

  lemma ReversePermutes<T>(s: seq<T>)
    ensures multiset(Reverse(s)) == multiset(s)
  {
    if s != [] {
      ReversePermutes(s[1..]);
      assert s == [s[0]] + s[1..];
    }
  }

  /** No element occurs twice. */
  predicate NoRepeats<T(==)>(s: seq<T>)
  {
    forall i, j :: 0 <= i < j < |s| ==> s[i] != s[j]
  }

  function Elements<T(==)>(s: seq<T>): set<T>
  {
    set x | x in s
  }

  /** A sequence has at most as many distinct elements as it has positions, and exactly as
      many when nothing repeats. */
  lemma {:induction false} ElementsCount<T>(s: seq<T>)
    ensures |Elements(s)| <= |s|
    ensures |Elements(s)| == |s| <==> NoRepeats(s)
  {
    if s == [] {
      assert Elements(s) == {};
    } else {
      var rest := s[1..];
      ElementsCount(rest);
      assert Elements(s) == {s[0]} + Elements(rest);
      if s[0] in rest {
        assert Elements(s) == Elements(rest);
        var j :| 0 <= j < |rest| && rest[j] == s[0];
        assert s[0] == s[j + 1];
      } else {
        assert |Elements(s)| == 1 + |Elements(rest)|;
        if NoRepeats(s) {
          assert NoRepeats(rest) by {
            forall i, j | 0 <= i < j < |rest| ensures rest[i] != rest[j] {
              assert rest[i] == s[i + 1] && rest[j] == s[j + 1];
            }
          }
        }
        if NoRepeats(rest) {
          forall i, j | 0 <= i < j < |s| ensures s[i] != s[j] {
            if i > 0 {
              assert s[i] == rest[i - 1] && s[j] == rest[j - 1];
            } else {
              assert s[j] in rest;
            }
          }
        }
      }
    }
  }

  /** A permutation of a sequence without repeats has none either. */
  lemma NoRepeatsPermutation<T>(a: seq<T>, b: seq<T>)
    requires NoRepeats(a) && multiset(a) == multiset(b)
    ensures NoRepeats(b)
  {
    assert Elements(a) == Elements(b) by {
      forall x ensures x in a <==> x in b {
        assert x in a <==> x in multiset(a);
        assert x in b <==> x in multiset(b);
      }
    }
    assert |a| == |multiset(a)| == |multiset(b)| == |b|;
    ElementsCount(a);
    ElementsCount(b);
  }

  lemma {:induction false} FilterNoRepeats<T>(s: seq<T>, keep: T -> bool)
    requires NoRepeats(s)
    ensures NoRepeats(Filter(s, keep))
  {
    if s != [] {
      var rest := s[1..];
      assert NoRepeats(rest) by {
        forall i, j | 0 <= i < j < |rest| ensures rest[i] != rest[j] {
          assert rest[i] == s[i + 1] && rest[j] == s[j + 1];
        }
      }
      FilterNoRepeats(rest, keep);
      FilterMembers(rest, keep);
      assert s[0] !in rest by {
        forall j | 0 <= j < |rest| ensures rest[j] != s[0] {
          assert rest[j] == s[j + 1];
        }
      }
    }
  }

  /** Every pair of elements, taken in order, satisfies `ok`. */
  predicate Pairwise<T>(s: seq<T>, ok: (T, T) -> bool)
  {
    forall i, j :: 0 <= i < j < |s| ==> ok(s[i], s[j])
  }

  lemma {:induction false} FilterPairwise<T>(s: seq<T>, keep: T -> bool, ok: (T, T) -> bool)
    requires Pairwise(s, ok)
    ensures Pairwise(Filter(s, keep), ok)
  {
    if s != [] {
      var rest := s[1..];
      assert Pairwise(rest, ok) by {
        forall i, j | 0 <= i < j < |rest| ensures ok(rest[i], rest[j]) {
          assert rest[i] == s[i + 1] && rest[j] == s[j + 1];
        }
      }
      FilterPairwise(rest, keep, ok);
      FilterMembers(rest, keep);
      var kept := Filter(rest, keep);
      if keep(s[0]) {
        var out := [s[0]] + kept;
        forall i, j | 0 <= i < j < |out| ensures ok(out[i], out[j]) {
          if i == 0 {
            assert out[j] == kept[j - 1];
            assert out[j] in kept;
            var k :| 0 <= k < |rest| && rest[k] == out[j];
            assert rest[k] == s[k + 1];
          } else {
            assert out[i] == kept[i - 1] && out[j] == kept[j - 1];
          }
        }
      }
    }
  }

  /** Filtering out a set of elements of a sequence without repeats removes exactly as many
      elements as the set has. */
  lemma FilterOutCount<T>(s: seq<T>, keep: T -> bool, gone: set<T>)
    requires NoRepeats(s)
    requires gone <= Elements(s)
    requires forall i :: 0 <= i < |s| ==> keep(s[i]) == (s[i] !in gone)
    ensures |Filter(s, keep)| == |s| - |gone|
  {
    var hit := (x: T) => x in gone;
    FilterSplit(s, keep, hit);
    FilterMembers(s, hit);
    FilterNoRepeats(s, hit);
    assert Elements(Filter(s, hit)) == gone;
    ElementsCount(Filter(s, hit));
  }

  lemma AppendPairwise<T>(s: seq<T>, x: T, ok: (T, T) -> bool)
    requires Pairwise(s, ok)
    requires forall i :: 0 <= i < |s| ==> ok(s[i], x)
    ensures Pairwise(s + [x], ok)
  {
    var t := s + [x];
    forall i, j | 0 <= i < j < |t| ensures ok(t[i], t[j]) {
      assert t[i] == s[i];
      if j < |s| {
        assert t[j] == s[j];
      }
    }
  }

  /** The keys never decrease along `s`. */
  predicate Ascending<T>(s: seq<T>, key: T -> int)
  {
    forall i, j :: 0 <= i < j < |s| ==> key(s[i]) <= key(s[j])
  }

  /** Inserts `x` before the first element whose key is not smaller than its own. */
  function InsertBy<T>(x: T, sorted: seq<T>, key: T -> int): (out: seq<T>)
    ensures |out| == |sorted| + 1
  {
    if sorted == [] || key(x) <= key(sorted[0]) then [x] + sorted
    else [sorted[0]] + InsertBy(x, sorted[1..], key)
  }

  /** `ORDER BY key ASC` over rows kept in insertion order: an insertion sort that puts the
      later of two equal keys first when read backwards, so elements with equal keys keep their
      order. */
  function SortBy<T>(s: seq<T>, key: T -> int): (out: seq<T>)
    ensures |out| == |s|
  {
    if s == [] then [] else InsertBy(s[0], SortBy(s[1..], key), key)
  }

  lemma {:induction false} InsertByPermutes<T>(x: T, sorted: seq<T>, key: T -> int)
    ensures multiset(InsertBy(x, sorted, key)) == multiset(sorted) + multiset{x}
  {
    if sorted != [] && key(x) > key(sorted[0]) {
      InsertByPermutes(x, sorted[1..], key);
      assert sorted == [sorted[0]] + sorted[1..];
    }
  }

  lemma {:induction false} InsertBySorts<T>(x: T, sorted: seq<T>, key: T -> int)
    requires Ascending(sorted, key)
    ensures Ascending(InsertBy(x, sorted, key), key)
  {
    if sorted != [] && key(x) > key(sorted[0]) {
      var tail := sorted[1..];
      assert Ascending(tail, key) by {
        forall i, j | 0 <= i < j < |tail| ensures key(tail[i]) <= key(tail[j]) {
          assert tail[i] == sorted[i + 1] && tail[j] == sorted[j + 1];
        }
      }
      InsertBySorts(x, tail, key);
      InsertByPermutes(x, tail, key);
      var rest := InsertBy(x, tail, key);
      forall k | 0 <= k < |rest| ensures key(sorted[0]) <= key(rest[k]) {
        assert rest[k] in multiset(tail) + multiset{x};
        if rest[k] != x {
          var m :| 0 <= m < |tail| && tail[m] == rest[k];
          assert tail[m] == sorted[m + 1];
        }
      }
      var out := [sorted[0]] + rest;
      forall i, j | 0 <= i < j < |out| ensures key(out[i]) <= key(out[j]) {
        if i > 0 {
          assert out[i] == rest[i - 1] && out[j] == rest[j - 1];
        } else {
          assert out[j] == rest[j - 1];
        }
      }
    }
  }

  /** `SortBy` orders by the key and keeps every element: its result is a sorted permutation. */
  lemma {:induction false} SortBySorts<T>(s: seq<T>, key: T -> int)
    ensures Ascending(SortBy(s, key), key)
    ensures multiset(SortBy(s, key)) == multiset(s)
  {
    if s != [] {
      SortBySorts(s[1..], key);
      InsertBySorts(s[0], SortBy(s[1..], key), key);
      InsertByPermutes(s[0], SortBy(s[1..], key), key);
      assert s == [s[0]] + s[1..];
    }
  }

  /** Reversing an ascending sequence gives a descending one. */
  lemma ReverseDescending<T>(s: seq<T>, key: T -> int)
    requires Ascending(s, key)
    ensures forall i, j :: 0 <= i < j < |s| ==> key(Reverse(s)[i]) >= key(Reverse(s)[j])
  {
  }

  /** A filter that keeps every element changes nothing. */
  lemma {:induction false} FilterKeepsAll<T>(s: seq<T>, keep: T -> bool)
    requires forall i :: 0 <= i < |s| ==> keep(s[i])
    ensures Filter(s, keep) == s
  {
    if s != [] {
      FilterKeepsAll(s[1..], keep);
    }
  }

  /** Appending elements the filter keeps appends them to the filtered sequence. */
  lemma FilterAppendKept<T>(a: seq<T>, b: seq<T>, keep: T -> bool)
    requires forall i :: 0 <= i < |b| ==> keep(b[i])
    ensures Filter(a + b, keep) == Filter(a, keep) + b
  {
    FilterAppend(a, b, keep);
    FilterKeepsAll(b, keep);
  }

  /** Filtering by `f` and then by a stricter test `g` is filtering by `g` alone. */
  lemma FilterWithin<T>(s: seq<T>, f: T -> bool, g: T -> bool)
    requires forall x :: g(x) ==> f(x)
    ensures Filter(Filter(s, f), g) == Filter(s, g)
  {
    FilterCommutes(s, f, g);
    FilterMembers(s, g);
    var kept := Filter(s, g);
    forall i | 0 <= i < |kept| ensures f(kept[i]) {
      assert kept[i] in kept;
    }
    FilterKeepsAll(kept, f);
  }
}
