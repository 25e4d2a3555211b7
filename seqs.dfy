/**
 * Generic list operations the pages build on: JavaScript's `Array.prototype.filter`
 * and the "remove every copy of this value" idiom `xs.filter((y) => y !== x)`.
 */
module Seqs {

  /** `a` can be obtained from `b` by deleting elements: the relative order is kept. */
  predicate IsSubsequence<T(==)>(a: seq<T>, b: seq<T>)
    decreases |b|
  {
    if a == [] then true
    else if b == [] then false
    else (a[0] == b[0] && IsSubsequence(a[1..], b[1..])) || IsSubsequence(a, b[1..])
  }

  /**
   * The recursion behind `Filter`, without its contract: proofs of list algebra work on
   * this one so that `Filter`'s quantified postconditions stay out of their way.
   */
  function Select<T>(xs: seq<T>, keep: T -> bool): seq<T>
    decreases |xs|
  {
    if xs == [] then []
    else if keep(xs[0]) then [xs[0]] + Select(xs[1..], keep)
    else Select(xs[1..], keep)
  }

  /** The elements of `xs` that satisfy `keep`, in their original order. */
  function Filter<T(==)>(xs: seq<T>, keep: T -> bool): (r: seq<T>)
    ensures r == Select(xs, keep)
    ensures |r| <= |xs|
    ensures forall i :: 0 <= i < |r| ==> r[i] in xs && keep(r[i])
    ensures forall i :: 0 <= i < |xs| && keep(xs[i]) ==> xs[i] in r
    ensures (forall i :: 0 <= i < |xs| ==> keep(xs[i])) ==> r == xs
    ensures (forall i :: 0 <= i < |xs| ==> !keep(xs[i])) ==> r == []
    decreases |xs|
  {
    if xs == [] then []
    else if keep(xs[0]) then [xs[0]] + Filter(xs[1..], keep)
    else Filter(xs[1..], keep)
  }

  /** Filtering only deletes elements: what is left is in its original order. */
  lemma {:induction false} FilterIsSubsequence<T>(xs: seq<T>, keep: T -> bool)
    ensures IsSubsequence(Filter(xs, keep), xs)
    decreases |xs|
  {
    if xs != [] {
      FilterIsSubsequence(xs[1..], keep);
      var rest := Filter(xs[1..], keep);
      if keep(xs[0]) {
        assert Filter(xs, keep) == [xs[0]] + rest;
        assert ([xs[0]] + rest)[1..] == rest;
      } else if rest != [] {
        assert Filter(xs, keep) == rest;
      }
    }
  }

  /** Every kept value keeps all its copies; every dropped value loses all of them. */
  lemma {:induction false} FilterMultiplicity<T>(xs: seq<T>, keep: T -> bool, x: T)
    ensures multiset(Filter(xs, keep))[x] == if keep(x) then multiset(xs)[x] else 0
    decreases |xs|
  {
    if xs != [] {
      FilterMultiplicity(xs[1..], keep, x);
      assert xs == [xs[0]] + xs[1..];
      assert multiset(xs) == multiset([xs[0]]) + multiset(xs[1..]);
      if keep(xs[0]) {
        assert multiset(Filter(xs, keep)) == multiset([xs[0]]) + multiset(Filter(xs[1..], keep));
      }
    }
  }

  /** `FilterMultiplicity` for every value at once: `Filter` keeps exactly the copies it keeps. */
  lemma FilterMultiset<T>(xs: seq<T>, keep: T -> bool)
    ensures forall x :: multiset(Filter(xs, keep))[x] == if keep(x) then multiset(xs)[x] else 0
  {
    forall x
      ensures multiset(Filter(xs, keep))[x] == if keep(x) then multiset(xs)[x] else 0
    {
      FilterMultiplicity(xs, keep, x);
    }
  }

  /** The indices below `k` whose element passes `keep`. */
  function PassingIndices<T>(xs: seq<T>, keep: T -> bool, k: nat): set<int>
    requires k <= |xs|
  {
    set i | 0 <= i < k && keep(xs[i])
  }

  /** The length of a selection from a prefix is the number of indices below `k` that pass. */
  lemma {:induction false} SelectCountsIndices<T>(xs: seq<T>, keep: T -> bool, k: nat)
    requires k <= |xs|
    ensures |Select(xs[..k], keep)| == |PassingIndices(xs, keep, k)|
    decreases k
  {
    if k == 0 {
      assert xs[..0] == [];
    } else {
      SelectCountsIndices(xs, keep, k - 1);
      var before := PassingIndices(xs, keep, k - 1);
      var after := PassingIndices(xs, keep, k);
      assert xs[..k] == xs[..k - 1] + [xs[k - 1]];
      SelectAppend(xs[..k - 1], [xs[k - 1]], keep);
      SelectSingleton(xs[k - 1], keep);
      if keep(xs[k - 1]) {
        assert after == before + {k - 1};
        assert k - 1 !in before;
      } else {
        assert after == before;
      }
    }
  }

  /** `Filter` keeps as many elements as there are indices whose element passes. */
  lemma FilterCountsIndices<T>(xs: seq<T>, keep: T -> bool)
    ensures |Filter(xs, keep)| == |PassingIndices(xs, keep, |xs|)|
  {
    SelectCountsIndices(xs, keep, |xs|);
    assert xs[..|xs|] == xs;
  }

  /** `Select` distributes over concatenation. */
  lemma {:induction false} SelectAppend<T>(a: seq<T>, b: seq<T>, keep: T -> bool)
    ensures Select(a + b, keep) == Select(a, keep) + Select(b, keep)
    decreases |a|
  {
    if a == [] {
      assert a + b == b;
    } else {
      SelectAppend(a[1..], b, keep);
      assert (a + b)[1..] == a[1..] + b;
    }
  }

  /** Filtering distributes over concatenation. */
  lemma FilterAppend<T>(a: seq<T>, b: seq<T>, keep: T -> bool)
    ensures Filter(a + b, keep) == Filter(a, keep) + Filter(b, keep)
  {
    SelectAppend(a, b, keep);
  }

  /** A one-element list keeps or loses its element. */
  lemma SelectSingleton<T>(x: T, keep: T -> bool)
    ensures Select([x], keep) == if keep(x) then [x] else []
  {
    assert [x][1..] == [];
  }

  /** The same, for `Filter`. */
  lemma FilterSingleton<T>(x: T, keep: T -> bool)
    ensures Filter([x], keep) == if keep(x) then [x] else []
  {
    SelectSingleton(x, keep);
  }

  /**
   * Appending an element that the test cannot keep together with `x` commutes with
   * appending `x`: the step that makes an insertion sort stable.
   */
  lemma SelectSwapLast<T>(r0: seq<T>, front: seq<T>, x: T, last: T, keep: T -> bool)
    requires Select(r0, keep) == Select(front, keep) + Select([x], keep)
    requires !(keep(x) && keep(last))
    ensures Select(r0 + [last], keep) == Select(front + [last], keep) + Select([x], keep)
  {
    SelectAppend(r0, [last], keep);
    SelectAppend(front, [last], keep);
    SelectSingleton(x, keep);
    SelectSingleton(last, keep);
    var a, xs, ls := Select(front, keep), Select([x], keep), Select([last], keep);
    assert xs == [] || ls == [];
    assert Select(r0 + [last], keep) == a + xs + ls;
    assert Select(front + [last], keep) + xs == a + ls + xs;
  }

  /** The same, for `Filter`. */
  lemma FilterSwapLast<T>(r0: seq<T>, front: seq<T>, x: T, last: T, keep: T -> bool)
    requires Filter(r0, keep) == Filter(front, keep) + Filter([x], keep)
    requires !(keep(x) && keep(last))
    ensures Filter(r0 + [last], keep) == Filter(front + [last], keep) + Filter([x], keep)
  {
    SelectSwapLast(r0, front, x, last, keep);
  }

  /** `Select` of a list whose every element fails the test is empty. */
  lemma {:induction false} SelectNone<T>(xs: seq<T>, keep: T -> bool)
    requires forall i :: 0 <= i < |xs| ==> !keep(xs[i])
    ensures Select(xs, keep) == []
    decreases |xs|
  {
    if xs != [] {
      SelectNone(xs[1..], keep);
    }
  }

  /** When only the last element passes, the selection keeps just that one. */
  lemma SelectOnlyLast<T>(xs: seq<T>, keep: T -> bool)
    requires xs != [] && keep(xs[|xs| - 1])
    requires forall i :: 0 <= i < |xs| - 1 ==> !keep(xs[i])
    ensures Select(xs, keep) == [xs[|xs| - 1]]
  {
    var front, last := xs[..|xs| - 1], xs[|xs| - 1];
    assert xs == front + [last];
    SelectNone(front, keep);
    SelectAppend(front, [last], keep);
    SelectSingleton(last, keep);
  }

  /** The same, for `Filter`. */
  lemma FilterOnlyLast<T>(xs: seq<T>, keep: T -> bool)
    requires xs != [] && keep(xs[|xs| - 1])
    requires forall i :: 0 <= i < |xs| - 1 ==> !keep(xs[i])
    ensures Filter(xs, keep) == [xs[|xs| - 1]]
  {
    SelectOnlyLast(xs, keep);
  }

  /** `Select` of a list whose every element passes the test is the list itself. */
  lemma {:induction false} SelectAll<T>(xs: seq<T>, keep: T -> bool)
    requires forall i :: 0 <= i < |xs| ==> keep(xs[i])
    ensures Select(xs, keep) == xs
    decreases |xs|
  {
    if xs != [] {
      SelectAll(xs[1..], keep);
    }
  }

  /** When the test rejects one element and keeps every other, selection drops just that one. */
  lemma SelectDropsOne<T>(pre: seq<T>, x: T, post: seq<T>, keep: T -> bool)
    requires forall k :: 0 <= k < |pre| ==> keep(pre[k])
    requires forall k :: 0 <= k < |post| ==> keep(post[k])
    requires !keep(x)
    ensures Select(pre + [x] + post, keep) == pre + post
  {
    var front := pre + [x];
    SelectAll(pre, keep);
    SelectAll(post, keep);
    SelectSingleton(x, keep);
    SelectAppend(pre, [x], keep);
    assert Select([x], keep) == [];
    assert pre + [] == pre;
    assert Select(front, keep) == pre;
    SelectAppend(front, post, keep);
    assert Select(front + post, keep) == pre + post;
  }

  /** The same, for `Filter`. */
  lemma FilterDropsOne<T>(pre: seq<T>, x: T, post: seq<T>, keep: T -> bool)
    requires forall k :: 0 <= k < |pre| ==> keep(pre[k])
    requires forall k :: 0 <= k < |post| ==> keep(post[k])
    requires !keep(x)
    ensures Filter(pre + [x] + post, keep) == pre + post
  {
    SelectDropsOne(pre, x, post, keep);
  }

  /** Filtering twice with the same test is filtering once. */
  lemma {:induction false} FilterIdempotent<T>(xs: seq<T>, keep: T -> bool)
    ensures Filter(Filter(xs, keep), keep) == Filter(xs, keep)
  {
    var r := Filter(xs, keep);
    assert forall i :: 0 <= i < |r| ==> keep(r[i]) by {
      forall i | 0 <= i < |r| ensures keep(r[i]) {
        assert r[i] in r;
      }
    }
  }

  /** Two tests that agree on every element select the same elements. */
  lemma {:induction false} FilterCongruent<T>(xs: seq<T>, p: T -> bool, q: T -> bool)
    requires forall i :: 0 <= i < |xs| ==> p(xs[i]) == q(xs[i])
    ensures Filter(xs, p) == Filter(xs, q)
    decreases |xs|
  {
    if xs != [] {
      FilterCongruent(xs[1..], p, q);
    }
  }

  /** Filtering by one test and then another is filtering by both at once. */
  lemma {:induction false} FilterFilter<T>(xs: seq<T>, p: T -> bool, q: T -> bool, both: T -> bool)
    requires forall i :: 0 <= i < |xs| ==> both(xs[i]) == (p(xs[i]) && q(xs[i]))
    ensures Filter(Filter(xs, p), q) == Filter(xs, both)
    decreases |xs|
  {
    if xs != [] {
      FilterFilter(xs[1..], p, q, both);
      if p(xs[0]) {
        assert Filter(xs, p) == [xs[0]] + Filter(xs[1..], p);
        assert Filter(xs, p)[1..] == Filter(xs[1..], p);
      }
    }
  }

  function Differs<T(==)>(x: T): T -> bool {
    y => y != x
  }

  function Equals<T(==)>(x: T): T -> bool {
    y => y == x
  }

  /** Picking one value out of a list without duplicates gives that value once, or nothing. */
  lemma {:induction false} SelectEquals<T>(xs: seq<T>, x: T)
    requires NoDuplicates(xs)
    ensures Select(xs, Equals(x)) == if x in xs then [x] else []
    decreases |xs|
  {
    if xs != [] {
      SelectEquals(xs[1..], x);
      assert x in xs <==> xs[0] == x || x in xs[1..];
      assert xs[0] !in xs[1..];
    }
  }

  /** The same, for `Filter`. */
  lemma FilterEquals<T>(xs: seq<T>, x: T)
    requires NoDuplicates(xs)
    ensures Filter(xs, Equals(x)) == if x in xs then [x] else []
  {
    SelectEquals(xs, x);
  }

  /** `xs` without any copy of `x` (JavaScript's `xs.filter((y) => y !== x)`). */
  function RemoveAll<T(==,!new)>(xs: seq<T>, x: T): (r: seq<T>)
    ensures x !in r
    ensures forall i :: 0 <= i < |r| ==> r[i] in xs
    ensures forall i :: 0 <= i < |xs| && xs[i] != x ==> xs[i] in r
    ensures x !in xs ==> r == xs
    ensures |r| < |xs| <==> x in xs
    ensures IsSubsequence(r, xs)
    ensures forall y :: multiset(r)[y] == if y == x then 0 else multiset(xs)[y]
  {
    var r := Filter(xs, Differs(x));
    FilterIsSubsequence(xs, Differs(x));
    FilterMultiset(xs, Differs(x));
    assert x in xs ==> |r| < |xs| by {
      if x in xs {
        FilterMultiplicity(xs, Differs(x), x);
        assert multiset(r)[x] == 0 < multiset(xs)[x];
        assert multiset(r) != multiset(xs);
        if |r| == |xs| {
          FilterMultiplicityAll(xs, Differs(x));
          assert false;
        }
      }
    }
    r
  }

  /** Removing a value just appended to a list without it gives the list back. */
  lemma RemoveAllAppended<T(!new)>(xs: seq<T>, x: T)
    requires x !in xs
    ensures RemoveAll(xs + [x], x) == xs
  {
    FilterAppend(xs, [x], Differs(x));
    FilterSingleton(x, Differs(x));
  }

  /** When nothing is dropped the length is unchanged, and conversely. */
  lemma {:induction false} FilterMultiplicityAll<T>(xs: seq<T>, keep: T -> bool)
    ensures |Filter(xs, keep)| == |xs| ==> Filter(xs, keep) == xs
    decreases |xs|
  {
    if xs != [] {
      FilterMultiplicityAll(xs[1..], keep);
      if !keep(xs[0]) {
        assert |Filter(xs, keep)| <= |xs[1..]|;
      }
    }
  }

  /** No value occurs twice. */
  predicate NoDuplicates<T(==)>(xs: seq<T>) {
    forall i, j :: 0 <= i < j < |xs| ==> xs[i] != xs[j]
  }

  /** Filtering keeps a list free of duplicates. */
  lemma {:induction false} FilterNoDuplicates<T>(xs: seq<T>, keep: T -> bool)
    requires NoDuplicates(xs)
    ensures NoDuplicates(Filter(xs, keep))
    decreases |xs|
  {
    if xs != [] {
      FilterNoDuplicates(xs[1..], keep);
      assert xs[0] !in xs[1..];
    }
  }

  /** A selection checkbox's `onChange`: checking appends the id, unchecking removes every copy of it. */
  function Checked<T(==,!new)>(selected: seq<T>, id: T, checked: bool): (r: seq<T>)
    ensures checked ==> r == selected + [id]
    ensures !checked ==> id !in r && forall i :: 0 <= i < |selected| && selected[i] != id ==> selected[i] in r
    ensures !checked ==> forall i :: 0 <= i < |r| ==> r[i] in selected
  {
    if checked then selected + [id] else RemoveAll(selected, id)
  }

  /** Checking and then unchecking a box gives back a selection without that id. */
  lemma CheckThenUncheck<T(!new)>(selected: seq<T>, id: T)
    requires id !in selected
    ensures Checked(Checked(selected, id, true), id, false) == selected
  {
    RemoveAllAppended(selected, id);
  }
}
