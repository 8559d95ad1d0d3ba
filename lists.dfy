/** The add-if-absent / remove-if-present toggle that the event form's
    checkboxes and both signup wizards' interest pickers apply to a list of
    strings: `xs.includes(v) ? xs.filter(x => x !== v) : [...xs, v]`. */
module Lists {

  /** `xs.filter(x => x !== v)`: every occurrence of `v` removed, the rest in
      order. Its properties are the lemmas below, so that proofs about
      concatenations of filtered lists do not carry them around. */
  function Without(xs: seq<string>, v: string): seq<string>
  {
    if |xs| == 0 then []
    else (if xs[0] == v then [] else [xs[0]]) + Without(xs[1..], v)
  }

  /** The filter drops exactly the occurrences of `v`: none is left and every
      other value keeps its multiplicity. */
  lemma {:induction false} WithoutCounts(xs: seq<string>, v: string)
    ensures multiset(Without(xs, v)) == multiset(xs)[v := 0]
    ensures v !in Without(xs, v)
  {
    if |xs| > 0 {
      assert xs == [xs[0]] + xs[1..];
      WithoutCounts(xs[1..], v);
    }
    assert multiset(Without(xs, v))[v] == 0;
  }

  /** Filtering out an absent value changes nothing; filtering out a present
      one shortens the list. */
  lemma {:induction false} WithoutLength(xs: seq<string>, v: string)
    ensures v !in xs ==> Without(xs, v) == xs
    ensures v in xs ==> |Without(xs, v)| < |xs|
  {
    if |xs| > 0 {
      assert xs == [xs[0]] + xs[1..];
      WithoutLength(xs[1..], v);
      if v !in xs {
        assert v !in xs[1..];
      }
    }
  }

  /** Filtering distributes over concatenation, so it keeps the order of the
      elements it keeps. */
  lemma {:induction false} WithoutAppend(xs: seq<string>, ys: seq<string>, v: string)
    ensures Without(xs + ys, v) == Without(xs, v) + Without(ys, v)
  {
    if |xs| == 0 {
      assert xs + ys == ys;
    } else {
      assert (xs + ys)[0] == xs[0] && (xs + ys)[1..] == xs[1..] + ys;
      WithoutAppend(xs[1..], ys, v);
    }
  }

  function Toggle(xs: seq<string>, v: string): (r: seq<string>)
    ensures v in r <==> v !in xs
    ensures v !in xs ==> |r| == |xs| + 1 && r[..|xs|] == xs && r[|xs|] == v
    ensures v in xs ==> multiset(r)[v] == 0 && |r| < |xs|
    ensures forall x :: x != v ==> multiset(r)[x] == multiset(xs)[x]
  {
    if v in xs then
      WithoutCounts(xs, v);
      WithoutLength(xs, v);
      Without(xs, v)
    else xs + [v]
  }

  /** Selecting a value and deselecting it again restores the list. */
  lemma ToggleTwiceAbsent(xs: seq<string>, v: string)
    requires v !in xs
    ensures Toggle(Toggle(xs, v), v) == xs
  {
    assert Toggle(xs, v) == xs + [v];
    WithoutAppend(xs, [v], v);
    WithoutLength(xs, v);
    assert Without([v], v) == [];
  }

  /** Deselecting a selected value and selecting it again moves it, once, to
      the end of the list. */
  lemma ToggleTwicePresent(xs: seq<string>, v: string)
    requires v in xs
    ensures Toggle(Toggle(xs, v), v) == Without(xs, v) + [v]
  {
  }
}
