/**
 * The array operations the pages use on their lists: `filter`, `[...new Set(xs)]`,
 * and `.filter(...).length` counts, with the facts the pages rely on.
 */
module Lists {

  /** r keeps some elements of xs, in the order xs has them. */
  predicate IsSubsequence<T(==)>(r: seq<T>, xs: seq<T>)
    decreases |xs|
  {
    if xs == [] then r == []
    else (r != [] && r[0] == xs[0] && IsSubsequence(r[1..], xs[1..])) || IsSubsequence(r, xs[1..])
  }

  /** Every list is a subsequence of itself. */
  lemma {:induction false} IsSubsequenceReflexive<T>(xs: seq<T>)
    ensures IsSubsequence(xs, xs)
    decreases |xs|
  {
    if xs != [] {
      IsSubsequenceReflexive(xs[1..]);
    }
  }

  /** No element occurs twice. */
  predicate NoDup<T(==)>(xs: seq<T>) {
    forall i, j :: 0 <= i < j < |xs| ==> xs[i] != xs[j]
  }

  /** `xs.filter(p)`: every passing element, as many times as xs has it, and no other. */
  function Filter<T(!new)>(xs: seq<T>, p: T -> bool): (r: seq<T>)
    ensures |r| <= |xs|
    ensures forall x :: x in r <==> x in xs && p(x)
    ensures forall x {:trigger Count(r, x)} :: Count(r, x) == if p(x) then Count(xs, x) else 0
    ensures IsSubsequence(r, xs)
  {
    if xs == [] then []
    else
      var rest := Filter(xs[1..], p);
      if p(xs[0]) then
        assert ([xs[0]] + rest)[1..] == rest;
        [xs[0]] + rest
      else rest
  }

  /** Filtering distributes over concatenation: `xs.concat(ys).filter(p)`. */
  lemma {:induction false} FilterAppend<T(!new)>(xs: seq<T>, ys: seq<T>, p: T -> bool)
    ensures Filter(xs + ys, p) == Filter(xs, p) + Filter(ys, p)
  {
    if xs == [] {
      assert xs + ys == ys;
    } else {
      assert (xs + ys)[1..] == xs[1..] + ys;
      FilterAppend(xs[1..], ys, p);
    }
  }

  /** A predicate that every element satisfies keeps the whole list. */
  lemma {:induction false} FilterAll<T(!new)>(xs: seq<T>, p: T -> bool)
    requires forall x :: x in xs ==> p(x)
    ensures Filter(xs, p) == xs
  {
    if xs != [] {
      FilterAll(xs[1..], p);
    }
  }

  /** Two predicates that agree on every element filter alike. */
  lemma {:induction false} FilterCongruent<T(!new)>(xs: seq<T>, p: T -> bool, q: T -> bool)
    requires forall x :: x in xs ==> (p(x) <==> q(x))
    ensures Filter(xs, p) == Filter(xs, q)
  {
    if xs != [] {
      FilterCongruent(xs[1..], p, q);
    }
  }

  /** Filtering a duplicate-free list leaves it duplicate-free. */
  lemma {:induction false} FilterNoDup<T(!new)>(xs: seq<T>, p: T -> bool)
    requires NoDup(xs)
    ensures NoDup(Filter(xs, p))
  {
    if xs != [] {
      assert NoDup(xs[1..]) by {
        forall i, j | 0 <= i < j < |xs[1..]| ensures xs[1..][i] != xs[1..][j] {
          assert xs[1..][i] == xs[i + 1] && xs[1..][j] == xs[j + 1];
        }
      }
      FilterNoDup(xs[1..], p);
      if p(xs[0]) {
        var r := [xs[0]] + Filter(xs[1..], p);
        forall i, j | 0 <= i < j < |r| ensures r[i] != r[j] {
          if i == 0 {
            assert r[j] in Filter(xs[1..], p);
            assert xs[0] !in xs[1..] by {
              forall k | 0 <= k < |xs[1..]| ensures xs[1..][k] != xs[0] {
                assert xs[1..][k] == xs[k + 1];
              }
            }
          }
        }
      }
    }
  }

  /** `[...new Set(xs)]`: the first occurrence of every element, in order. */
  function Dedup<T(==,!new)>(xs: seq<T>): (r: seq<T>)
    ensures NoDup(r)
    ensures forall x :: x in r <==> x in xs
    ensures NoDup(xs) ==> r == xs
    decreases |xs|
  {
    if xs == [] then []
    else
      var init := xs[..|xs| - 1];
      var last := xs[|xs| - 1];
      assert xs == init + [last];
      assert NoDup(xs) ==> NoDup(init) && last !in init by {
        if NoDup(xs) {
          forall i, j | 0 <= i < j < |init| ensures init[i] != init[j] {
            assert init[i] == xs[i] && init[j] == xs[j];
          }
          forall k | 0 <= k < |init| ensures init[k] != last {
            assert init[k] == xs[k];
          }
        }
      }
      var d := Dedup(init);
      if last in d then d else d + [last]
  }

  /** Deduplicating `a + b` when `a` has no duplicates keeps `a` as it is, at the front. */
  lemma {:induction false} DedupKeepsPrefix<T(!new)>(a: seq<T>, b: seq<T>)
    requires NoDup(a)
    ensures |a| <= |Dedup(a + b)| && Dedup(a + b)[..|a|] == a
    decreases |b|
  {
    if b == [] {
      assert a + b == a;
    } else {
      var b' := b[..|b| - 1];
      assert (a + b)[..|a + b| - 1] == a + b';
      DedupKeepsPrefix(a, b');
    }
  }

  /** `xs.filter(x => x == v).length`. */
  function Count<T(==)>(xs: seq<T>, v: T): (n: nat)
    ensures n <= |xs|
    ensures n == 0 <==> v !in xs
  {
    if xs == [] then 0 else (if xs[0] == v then 1 else 0) + Count(xs[1..], v)
  }
}
