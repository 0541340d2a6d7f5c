/** The append-if loop shared by the scraper's extraction passes. */
module Seqs {
  import opened Wrappers

  /** The optional contribution of one element. */
  function Emit<B>(o: Option<B>): (r: seq<B>)
    ensures |r| <= 1
  {
    match o
    case Some(y) => [y]
    case None => []
  }

  /**
   * Visits `xs` in order and appends `y` whenever `f` gives `Some(y)`:
   * the shape of `for x in xs: if ...: out.append(...)`.
   */
  function FilterMap<A, B>(xs: seq<A>, f: A -> Option<B>): (r: seq<B>)
    ensures |r| <= |xs|
  {
    if xs == [] then [] else FilterMap(xs[..|xs| - 1], f) + Emit(f(xs[|xs| - 1]))
  }

  /** One more step of the loop appends that element's contribution. */
  lemma FilterMapSnoc<A, B>(xs: seq<A>, x: A, f: A -> Option<B>)
    ensures FilterMap(xs + [x], f) == FilterMap(xs, f) + Emit(f(x))
  {
    assert (xs + [x])[..|xs|] == xs;
  }

  /** The result of a concatenation is the concatenation of results: order is kept. */
  lemma {:induction false} FilterMapAppend<A, B>(xs: seq<A>, ys: seq<A>, f: A -> Option<B>)
    ensures FilterMap(xs + ys, f) == FilterMap(xs, f) + FilterMap(ys, f)
    decreases |ys|
  {
    if ys == [] {
      assert xs + ys == xs;
    } else {
      var ys' := ys[..|ys| - 1];
      var y := ys[|ys| - 1];
      calc {
        FilterMap(xs + ys, f);
        { assert xs + ys == (xs + ys') + [y]; }
        FilterMap((xs + ys') + [y], f);
        { FilterMapSnoc(xs + ys', y, f); }
        FilterMap(xs + ys', f) + Emit(f(y));
        { FilterMapAppend(xs, ys', f); }
        (FilterMap(xs, f) + FilterMap(ys', f)) + Emit(f(y));
        FilterMap(xs, f) + (FilterMap(ys', f) + Emit(f(y)));
        { FilterMapSnoc(ys', y, f); assert ys' + [y] == ys; }
        FilterMap(xs, f) + FilterMap(ys, f);
      }
    }
  }

  /** Every output comes from some input, and every input that qualifies contributes. */
  lemma {:induction false} FilterMapMembers<A, B>(xs: seq<A>, f: A -> Option<B>)
    ensures forall y :: y in FilterMap(xs, f) ==> exists x :: x in xs && f(x) == Some(y)
    ensures forall x :: x in xs && f(x).Some? ==> f(x).value in FilterMap(xs, f)
  {
    if xs != [] {
      var init := xs[..|xs| - 1];
      FilterMapMembers(init, f);
      assert xs == init + [xs[|xs| - 1]];
    }
  }
}
