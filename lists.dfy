/** Order-preserving filters, the shape of both list filters in main.py. */
module Lists {

  /** `idx` picks the elements of `xs` out of `ys`, at strictly increasing positions. */
  ghost predicate Embeds<T>(idx: seq<nat>, xs: seq<T>, ys: seq<T>)
  {
    && |idx| == |xs|
    && (forall i :: 0 <= i < |idx| ==> idx[i] < |ys| && xs[i] == ys[idx[i]])
    && (forall i, j :: 0 <= i < j < |idx| ==> idx[i] < idx[j])
  }

  /** `xs` is `ys` with some elements removed and the rest kept in order. */
  ghost predicate IsSubsequence<T>(xs: seq<T>, ys: seq<T>)
  {
    exists idx :: Embeds(idx, xs, ys)
  }

  /** The elements of `xs` that satisfy `keep`, in order: a loop that appends each one that passes. */
  function Filter<T>(xs: seq<T>, keep: T -> bool): (r: seq<T>)
    ensures |r| <= |xs|
    ensures forall x :: x in r ==> keep(x)
  {
    if xs == [] then [] else Filter(xs[..|xs| - 1], keep) + (if keep(xs[|xs| - 1]) then [xs[|xs| - 1]] else [])
  }

  /** One more pass of such a loop. */
  lemma FilterSnoc<T>(xs: seq<T>, x: T, keep: T -> bool)
    ensures Filter(xs + [x], keep) == Filter(xs, keep) + (if keep(x) then [x] else [])
  {
    assert (xs + [x])[..|xs|] == xs;
  }

  /** The filter drops nothing that passes. */
  lemma {:induction false} FilterComplete<T>(xs: seq<T>, keep: T -> bool, i: nat)
    requires i < |xs| && keep(xs[i])
    ensures xs[i] in Filter(xs, keep)
  {
    var n := |xs| - 1;
    if i < n {
      assert xs[..n][i] == xs[i];
      FilterComplete(xs[..n], keep, i);
    }
  }

  /** A filter that every element passes changes nothing. */
  lemma {:induction false} FilterAll<T>(xs: seq<T>, keep: T -> bool)
    requires forall i :: 0 <= i < |xs| ==> keep(xs[i])
    ensures Filter(xs, keep) == xs
  {
    if xs != [] {
      var n := |xs| - 1;
      FilterAll(xs[..n], keep);
      assert xs[..n] + [xs[n]] == xs;
    }
  }

  /** Where each element that passes sits in the input. */
  ghost function Positions<T>(xs: seq<T>, keep: T -> bool): seq<nat>
  {
    if xs == [] then [] else
      var n := |xs| - 1;
      Positions(xs[..n], keep) + (if keep(xs[n]) then [n] else [])
  }

  lemma {:induction false} PositionsEmbed<T>(xs: seq<T>, keep: T -> bool)
    ensures Embeds(Positions(xs, keep), Filter(xs, keep), xs)
  {
    if xs != [] {
      var n := |xs| - 1;
      var idx, r := Positions(xs[..n], keep), Filter(xs[..n], keep);
      PositionsEmbed(xs[..n], keep);
      assert xs == xs[..n] + [xs[n]];
      if keep(xs[n]) {
        assert Embeds(idx + [n], r + [xs[n]], xs);
      } else {
        assert idx + [] == idx && r + [] == r;
      }
    }
  }

  /** The filter only removes: what it keeps appears in the input, in the same order. */
  lemma FilterSubsequence<T>(xs: seq<T>, keep: T -> bool)
    ensures IsSubsequence(Filter(xs, keep), xs)
  {
    PositionsEmbed(xs, keep);
  }
}
