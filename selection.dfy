/**
 * The `selectedImages` Set of both scripts. A JavaScript Set iterates in
 * insertion order and the archive numbering follows that order, so the set
 * is a duplicate-free sequence of image sources, oldest first.
 */
module Selection {
  import opened Text
  import opened Sequences

  predicate Distinct(s: seq<String>) {
    forall i, j :: 0 <= i < j < |s| ==> s[i] != s[j]
  }

  /** `set.add(x)`: a new member goes to the end; a present one stays where it is. */
  function Insert(s: seq<String>, x: String): (r: seq<String>)
    ensures forall y :: y in r <==> y in s || y == x
    ensures Distinct(s) ==> Distinct(r)
    ensures |s| <= |r| && r[..|s|] == s
    ensures |r| == if x in s then |s| else |s| + 1
  {
    if x in s then s else s + [x]
  }

  /** `set.delete(x)`: the other members keep their relative order. */
  function Remove(s: seq<String>, x: String): (r: seq<String>)
    ensures forall y :: y in r <==> y in s && y != x
    ensures Distinct(s) ==> Distinct(r)
    ensures Distinct(s) && x in s ==> |r| == |s| - 1
    ensures x !in s ==> r == s
  {
    if s == [] then []
    else
      var rest := Remove(s[1..], x);
      assert forall y :: y in s <==> y == s[0] || y in s[1..];
      if s[0] == x then rest
      else
        assert Distinct(s) ==> Distinct(s[1..]) && s[0] !in s[1..] by {
          if Distinct(s) {
            assert forall k :: 0 <= k < |s[1..]| ==> s[1..][k] == s[k + 1];
          }
        }
        assert forall k :: 1 <= k < |rest| + 1 ==> ([s[0]] + rest)[k] == rest[k - 1];
        [s[0]] + rest
  }

  /** Adding each source of `xs` in turn, as a forEach over the checkboxes does. */
  function InsertAll(s: seq<String>, xs: seq<String>): (r: seq<String>)
    ensures forall y :: y in r <==> y in s || y in xs
    ensures Distinct(s) ==> Distinct(r)
    ensures |s| <= |r| && r[..|s|] == s
    decreases |xs|
  {
    if xs == [] then s
    else
      assert forall y :: y in xs <==> y == xs[0] || y in xs[1..];
      var r := InsertAll(Insert(s, xs[0]), xs[1..]);
      assert r[..|s|] == r[..|Insert(s, xs[0])|][..|s|];
      r
  }

  /** Adding a source that is already selected changes nothing. */
  lemma InsertIdempotent(s: seq<String>, x: String)
    ensures Insert(Insert(s, x), x) == Insert(s, x)
  {
  }

  /** Deleting a source drops nothing else and keeps the others in order. */
  lemma {:induction false} RemoveKeepsOrder(s: seq<String>, x: String)
    ensures IsSubsequence(Remove(s, x), s)
  {
    if s != [] {
      RemoveKeepsOrder(s[1..], x);
      if s[0] == x {
        SubsequenceOfTail(Remove(s[1..], x), s);
      } else {
        assert ([s[0]] + Remove(s[1..], x))[1..] == Remove(s[1..], x);
      }
    }
  }

  /** Checking and then unchecking a box that was not selected restores the selection. */
  lemma {:induction false} CheckThenUncheckRestores(s: seq<String>, x: String)
    requires x !in s
    ensures Remove(Insert(s, x), x) == s
  {
    RemoveLast(s, x);
  }

  lemma {:induction false} RemoveLast(s: seq<String>, x: String)
    requires x !in s
    ensures Remove(s + [x], x) == s
  {
    if s == [] {
      assert Remove([x][1..], x) == [];
    } else {
      assert (s + [x])[1..] == s[1..] + [x];
      RemoveLast(s[1..], x);
    }
  }

  lemma {:induction false} InsertAllSnoc(s: seq<String>, xs: seq<String>, x: String)
    ensures InsertAll(s, xs + [x]) == Insert(InsertAll(s, xs), x)
    decreases |xs|
  {
    if xs == [] {
      assert InsertAll(Insert(s, x), []) == Insert(s, x);
      assert ([] + [x])[1..] == [];
    } else {
      assert (xs + [x])[0] == xs[0];
      assert (xs + [x])[1..] == xs[1..] + [x];
      InsertAllSnoc(Insert(s, xs[0]), xs[1..], x);
    }
  }

  /** The Set object itself. */
  class SelectedImages {
    var items: seq<String>

    ghost predicate Valid()
      reads this
    {
      Distinct(items)
    }

    /** `new Set()`. */
    constructor()
      ensures Valid() && items == []
    {
      items := [];
    }

    /** `selectedImages.size`. */
    function Size(): nat
      reads this
    {
      |items|
    }

    /** `selectedImages.has(src)`. */
    predicate Has(src: String)
      reads this
    {
      src in items
    }

    method Add(src: String)
      requires Valid()
      modifies this
      ensures Valid() && items == Insert(old(items), src)
    {
      if src !in items {
        items := items + [src];
      }
    }

    method Delete(src: String)
      requires Valid()
      modifies this
      ensures Valid() && items == Remove(old(items), src)
    {
      items := Remove(items, src);
    }

    method Clear()
      modifies this
      ensures Valid() && items == []
    {
      items := [];
    }

    /** Adds every source of `srcs`, in order. */
    method AddAll(srcs: seq<String>)
      requires Valid()
      modifies this
      ensures Valid() && items == InsertAll(old(items), srcs)
    {
      var i := 0;
      while i < |srcs|
        invariant 0 <= i <= |srcs|
        invariant Valid() && items == InsertAll(old(items), srcs[..i])
      {
        InsertAllSnoc(old(items), srcs[..i], srcs[i]);
        TakeOneMore(srcs, i);
        Add(srcs[i]);
        i := i + 1;
      }
      assert srcs[..i] == srcs;
    }
  }
}
