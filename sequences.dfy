/** `Array.prototype.filter` and the facts about it the filters rely on. */
module Sequences {
  import opened Wrappers

  /** `xs.filter(p)`: the elements satisfying `p`, in their original order. */
  function Keep<T>(xs: seq<T>, p: T -> bool): (r: seq<T>)
    ensures |r| <= |xs|
  {
    if xs == [] then []
    else if p(xs[0]) then [xs[0]] + Keep(xs[1..], p)
    else Keep(xs[1..], p)
  }

  lemma HeadAndTail<T>(xs: seq<T>)
    requires xs != []
    ensures [xs[0]] + xs[1..] == xs
  {
  }

  /** One more element of a prefix. */
  lemma TakeOneMore<T>(xs: seq<T>, i: nat)
    requires i < |xs|
    ensures xs[..i + 1] == xs[..i] + [xs[i]] && xs[..i + 1][..i] == xs[..i]
  {
  }

  /** The front of a sequence with one element appended is the sequence. */
  lemma AppendLast<T>(a: seq<T>, x: T)
    ensures (a + [x])[..|a|] == a && (a + [x])[|a|] == x
  {
  }

  /** The filter keeps every element satisfying `p` and nothing else. */
  lemma {:induction false} KeepMembers<T>(xs: seq<T>, p: T -> bool)
    ensures forall i :: 0 <= i < |Keep(xs, p)| ==> Keep(xs, p)[i] in xs && p(Keep(xs, p)[i])
    ensures forall i :: 0 <= i < |xs| && p(xs[i]) ==> xs[i] in Keep(xs, p)
  {
    if xs != [] {
      var rest := Keep(xs[1..], p);
      KeepMembers(xs[1..], p);
      assert forall i :: 1 <= i < |xs| ==> xs[i] == xs[1..][i - 1];
      if p(xs[0]) {
        assert Keep(xs, p) == [xs[0]] + rest;
        assert forall i :: 1 <= i < |rest| + 1 ==> ([xs[0]] + rest)[i] == rest[i - 1];
      }
    }
  }

  /** One step of the filter: the head survives exactly when it satisfies `p`. */
  lemma KeepCons<T>(xs: seq<T>, p: T -> bool)
    requires xs != []
    ensures multiset(Keep(xs, p)) == (if p(xs[0]) then multiset{xs[0]} else multiset{}) + multiset(Keep(xs[1..], p))
  {
  }

  /** `a` is `b` with some elements left out, the rest in the same order. */
  ghost predicate IsSubsequence<T>(a: seq<T>, b: seq<T>) {
    if a == [] then true
    else if b == [] then false
    else if a[0] == b[0] then IsSubsequence(a[1..], b[1..])
    else IsSubsequence(a, b[1..])
  }

  /** Adding an element in front of the longer sequence keeps an embedding. */
  lemma {:induction false} SubsequenceOfTail<T>(a: seq<T>, b: seq<T>)
    requires b != [] && IsSubsequence(a, b[1..])
    ensures IsSubsequence(a, b)
    decreases |a| + |b|, 1
  {
    if a != [] && a[0] == b[0] {
      DropHead(a, b[1..]);
    }
  }

  /** Dropping the first element of the shorter sequence keeps an embedding. */
  lemma {:induction false} DropHead<T>(a: seq<T>, c: seq<T>)
    requires a != [] && IsSubsequence(a, c)
    ensures IsSubsequence(a[1..], c)
    decreases |a| + |c|, 0
  {
    if a[0] == c[0] {
      SubsequenceOfTail(a[1..], c);
    } else {
      DropHead(a, c[1..]);
      SubsequenceOfTail(a[1..], c);
    }
  }

  /** Filtering keeps the original relative order. */
  lemma {:induction false} KeepIsSubsequence<T>(xs: seq<T>, p: T -> bool)
    ensures IsSubsequence(Keep(xs, p), xs)
  {
    if xs != [] {
      KeepIsSubsequence(xs[1..], p);
      if !p(xs[0]) {
        SubsequenceOfTail(Keep(xs[1..], p), xs);
      }
    }
  }

  /**
   * `r` is `xs` restricted to the elements satisfying `p`: in their original
   * order, each such element exactly as often as in `xs`, and nothing else.
   */
  ghost predicate Filtered<T(!new)>(r: seq<T>, xs: seq<T>, p: T -> bool) {
    IsSubsequence(r, xs) && forall x :: multiset(r)[x] == if p(x) then multiset(xs)[x] else 0
  }

  /** Each element's count after filtering is its count before, or zero. */
  lemma {:induction false} KeepCounts<T>(xs: seq<T>, p: T -> bool)
    ensures forall x :: multiset(Keep(xs, p))[x] == if p(x) then multiset(xs)[x] else 0
  {
    if xs != [] {
      KeepCounts(xs[1..], p);
      KeepCons(xs, p);
      HeadAndTail(xs);
      assert multiset(xs) == multiset{xs[0]} + multiset(xs[1..]);
    }
  }

  /** The filter is exactly the restriction of its input to `p`. */
  lemma KeepIsFiltered<T(!new)>(xs: seq<T>, p: T -> bool)
    ensures Filtered(Keep(xs, p), xs, p)
  {
    KeepIsSubsequence(xs, p);
    KeepCounts(xs, p);
  }

  /**
   * What `p` keeps and what it drops partition the input: each element,
   * counted with its repetitions, lands in exactly one of the two.
   */
  lemma {:induction false} KeepPartition<T>(xs: seq<T>, p: T -> bool, q: T -> bool)
    requires forall x :: q(x) == !p(x)
    ensures multiset(Keep(xs, p)) + multiset(Keep(xs, q)) == multiset(xs)
  {
    if xs != [] {
      KeepPartition(xs[1..], p, q);
      HeadAndTail(xs);
    }
  }

  /** The test "`f` maps this element to `k`". */
  function Is<T, K(==)>(f: T -> K, k: K): T -> bool {
    x => f(x) == k
  }

  /**
   * Where `f` takes one of three distinct values, the three filters by
   * value share out the input: each element lands in exactly one of them.
   */
  lemma {:induction false} KeepPartition3<T, K>(xs: seq<T>, f: T -> K, a: K, b: K, c: K)
    requires a != b && b != c && a != c
    requires forall i :: 0 <= i < |xs| ==> f(xs[i]) == a || f(xs[i]) == b || f(xs[i]) == c
    ensures multiset(Keep(xs, Is(f, a))) + multiset(Keep(xs, Is(f, b))) + multiset(Keep(xs, Is(f, c))) == multiset(xs)
  {
    if xs != [] {
      var x, rest := xs[0], xs[1..];
      assert forall i :: 0 <= i < |rest| ==> rest[i] == xs[i + 1];
      KeepPartition3(rest, f, a, b, c);
      KeepCons(xs, Is(f, a));
      KeepCons(xs, Is(f, b));
      KeepCons(xs, Is(f, c));
      HeadAndTail(xs);
      assert multiset(xs) == multiset{x} + multiset(rest);
    }
  }

  /** A filter whose predicate holds everywhere returns the input unchanged. */
  lemma {:induction false} KeepAll<T>(xs: seq<T>, p: T -> bool)
    requires forall x :: x in xs ==> p(x)
    ensures Keep(xs, p) == xs
  {
    if xs != [] {
      KeepAll(xs[1..], p);
      assert xs == [xs[0]] + xs[1..];
    }
  }

  /** A filter whose predicate holds nowhere returns the empty list. */
  lemma {:induction false} KeepNone<T>(xs: seq<T>, p: T -> bool)
    requires forall i :: 0 <= i < |xs| ==> !p(xs[i])
    ensures Keep(xs, p) == []
  {
    if xs != [] {
      assert forall i :: 0 <= i < |xs[1..]| ==> xs[1..][i] == xs[i + 1];
      KeepNone(xs[1..], p);
    }
  }

  /** Filters whose predicates agree on the input's elements return the same list. */
  lemma {:induction false} KeepCongruent<T>(xs: seq<T>, p: T -> bool, q: T -> bool)
    requires forall i :: 0 <= i < |xs| ==> p(xs[i]) == q(xs[i])
    ensures Keep(xs, p) == Keep(xs, q)
  {
    if xs != [] {
      assert forall i :: 0 <= i < |xs[1..]| ==> xs[1..][i] == xs[i + 1];
      KeepCongruent(xs[1..], p, q);
    }
  }

  /**
   * A loop that appends `f(x).value` for each `x` where `f(x)` is Some:
   * the shape of the record-building loops.
   */
  function FilterMap<A, B>(xs: seq<A>, f: A -> Option<B>): seq<B>
    decreases |xs|
  {
    if xs == [] then []
    else
      var last := f(xs[|xs| - 1]);
      FilterMap(xs[..|xs| - 1], f) + (if last.Some? then [last.value] else [])
  }

  /**
   * What the loop produces: one value per input that yields one, and
   * nothing that some input did not yield.
   */
  lemma {:induction false} FilterMapMembers<A, B>(xs: seq<A>, f: A -> Option<B>)
    ensures |FilterMap(xs, f)| <= |xs|
    ensures forall i :: 0 <= i < |xs| && f(xs[i]).Some? ==> f(xs[i]).value in FilterMap(xs, f)
    ensures forall k :: 0 <= k < |FilterMap(xs, f)| ==> exists i :: 0 <= i < |xs| && f(xs[i]) == Some(FilterMap(xs, f)[k])
    decreases |xs|
  {
    if xs != [] {
      var init := xs[..|xs| - 1];
      FilterMapMembers(init, f);
      assert forall i :: 0 <= i < |init| ==> init[i] == xs[i];
    }
  }

  function Min(a: nat, b: nat): nat {
    if a < b then a else b
  }
}
