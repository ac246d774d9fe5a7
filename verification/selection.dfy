/** The service selection of step 1 and its toggle handler
    (`handleServiceToggle`, src/pages/Book.tsx lines 49-55). */
module Selection {

  /** No id occurs twice. */
  predicate NoDuplicates(xs: seq<string>) {
    forall i, j :: 0 <= i < j < |xs| ==> xs[i] != xs[j]
  }

  /** Every id is one of `allowed`. */
  predicate Within(xs: seq<string>, allowed: seq<string>) {
    forall i :: 0 <= i < |xs| ==> xs[i] in allowed
  }

  /** `xs.filter(id => id !== x)`: drops every occurrence of `x` and keeps
      the other ids in their order. */
  function Without(xs: seq<string>, x: string): (r: seq<string>)
    ensures forall y :: y in r <==> y in xs && y != x
    ensures x !in xs ==> r == xs
    ensures |r| <= |xs|
    ensures NoDuplicates(xs) ==> NoDuplicates(r)
    ensures NoDuplicates(xs) && x in xs ==> |r| == |xs| - 1
  {
    if |xs| == 0 then []
    else
      var rest := Without(xs[1..], x);
      assert xs == [xs[0]] + xs[1..];
      if xs[0] == x then rest
      else
        assert NoDuplicates(xs) ==> xs[0] !in xs[1..];
        [xs[0]] + rest
  }

  /** The toggle handler: an id already selected is filtered out, any other
      id is appended at the end. */
  function Toggle(xs: seq<string>, x: string): (r: seq<string>)
    ensures x in xs ==> x !in r && forall y :: y != x ==> (y in r <==> y in xs)
    ensures x !in xs ==> |r| == |xs| + 1 && r[..|xs|] == xs && r[|xs|] == x
    ensures NoDuplicates(xs) ==> NoDuplicates(r)
  {
    if x in xs then Without(xs, x) else xs + [x]
  }

  /** With no duplicates, filtering out a present id removes exactly the one
      position that holds it. */
  lemma {:induction false} WithoutRemovesOnePosition(xs: seq<string>, i: nat)
    requires NoDuplicates(xs)
    requires i < |xs|
    ensures Without(xs, xs[i]) == xs[..i] + xs[i + 1..]
  {
    var x := xs[i];
    if i == 0 {
      assert xs[0] !in xs[1..];
      assert Without(xs, x) == Without(xs[1..], x);
      assert Without(xs[1..], x) == xs[1..];
      assert xs[..0] + xs[1..] == xs[1..];
    } else {
      var tail := xs[1..];
      assert NoDuplicates(tail);
      WithoutRemovesOnePosition(tail, i - 1);
      assert tail[i - 1] == x;
      assert xs[0] != x;
      assert Without(xs, x) == [xs[0]] + Without(tail, x);
      CutAfterHead(xs, i);
    }
  }

  /** Past the head, cutting position i out of a list is the head followed
      by cutting position i - 1 out of the tail. */
  lemma CutAfterHead(xs: seq<string>, i: nat)
    requires 1 <= i < |xs|
    ensures xs[..i] + xs[i + 1..] == [xs[0]] + (xs[1..][..i - 1] + xs[1..][i..])
  {
    assert xs[1..][..i - 1] == xs[1..i];
    assert xs[1..][i..] == xs[i + 1..];
    assert xs[..i] == [xs[0]] + xs[1..i];
  }

  /** Viewed as a set, the toggle is the symmetric difference with {x}. */
  lemma ToggleIsSymmetricDifference(xs: seq<string>, x: string)
    ensures forall y :: y in Toggle(xs, x) <==> (y in xs <==> y != x)
  {
  }

  /** Toggling an id that is not selected, and then toggling it again, gives
      back exactly the original list. */
  lemma ToggleTwiceAbsent(xs: seq<string>, x: string)
    requires x !in xs
    ensures Toggle(Toggle(xs, x), x) == xs
  {
    WithoutDistributes(xs, [x], x);
    assert Without([x], x) == [];
  }

  /** Filtering distributes over concatenation. */
  lemma {:induction false} WithoutDistributes(a: seq<string>, b: seq<string>, x: string)
    ensures Without(a + b, x) == Without(a, x) + Without(b, x)
  {
    if |a| == 0 {
      assert a + b == b;
    } else {
      assert (a + b)[1..] == a[1..] + b;
      WithoutDistributes(a[1..], b, x);
    }
  }

  /** Toggling a selected id twice moves it to the end of the list: the
      result holds the same ids, each once, in a possibly different order. */
  lemma ToggleTwicePresent(xs: seq<string>, i: nat)
    requires NoDuplicates(xs)
    requires i < |xs|
    ensures Toggle(Toggle(xs, xs[i]), xs[i]) == xs[..i] + xs[i + 1..] + [xs[i]]
    ensures multiset(Toggle(Toggle(xs, xs[i]), xs[i])) == multiset(xs)
  {
    WithoutRemovesOnePosition(xs, i);
    assert xs == xs[..i] + [xs[i]] + xs[i + 1..];
  }

  /** A selection built only from ids of `allowed` stays within it, whatever
      is toggled from `allowed`. */
  lemma ToggleStaysWithin(xs: seq<string>, x: string, allowed: seq<string>)
    requires Within(xs, allowed)
    requires x in allowed
    ensures Within(Toggle(xs, x), allowed)
  {
    var r := Toggle(xs, x);
    forall k | 0 <= k < |r|
      ensures r[k] in allowed
    {
      assert r[k] in r;
    }
  }
}
