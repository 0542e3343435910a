/** Picking the elements of a list that meet a condition, by value and by position. */
module Lists {

  /** The elements of `xs` that are kept, in their order. */
  function Filter<T>(xs: seq<T>, keep: T -> bool): seq<T> {
    if |xs| == 0 then []
    else Filter(xs[..|xs| - 1], keep) + if keep(xs[|xs| - 1]) then [xs[|xs| - 1]] else []
  }

  /** Their positions. */
  function Positions<T>(xs: seq<T>, keep: T -> bool): (ps: seq<nat>)
    ensures forall i :: 0 <= i < |ps| ==> ps[i] < |xs|
  {
    if |xs| == 0 then []
    else Positions(xs[..|xs| - 1], keep) + if keep(xs[|xs| - 1]) then [|xs| - 1] else []
  }

  function Map<T, U>(xs: seq<T>, f: T -> U): (ys: seq<U>)
    ensures |ys| == |xs|
    ensures forall i :: 0 <= i < |xs| ==> ys[i] == f(xs[i])
  {
    seq(|xs|, i requires 0 <= i < |xs| => f(xs[i]))
  }

  lemma PrefixSnoc<T>(xs: seq<T>, i: nat)
    requires i < |xs|
    ensures xs[..i + 1] == xs[..i] + [xs[i]] && xs[..i + 1][..i] == xs[..i]
  {
  }

  lemma PrefixKeeps<T, U>(xs: seq<T>, i: nat, keep: T -> bool, f: T -> U)
    requires i < |xs|
    ensures Filter(xs[..i + 1], keep) == Filter(xs[..i], keep) + if keep(xs[i]) then [xs[i]] else []
    ensures Positions(xs[..i + 1], keep) == Positions(xs[..i], keep) + if keep(xs[i]) then [i] else []
    ensures Map(xs[..i + 1], f) == Map(xs[..i], f) + [f(xs[i])]
  {
    PrefixSnoc(xs, i);
  }

  lemma FilterSnoc<T>(xs: seq<T>, x: T, keep: T -> bool)
    ensures Filter(xs + [x], keep) == Filter(xs, keep) + if keep(x) then [x] else []
  {
    assert (xs + [x])[..|xs|] == xs;
  }

  /** The positions are exactly those of the kept elements, in ascending order, and the elements
      at them are the kept ones. */
  lemma {:induction false} PositionsExact<T>(xs: seq<T>, keep: T -> bool)
    ensures var ps := Positions(xs, keep);
            && (forall i, j :: 0 <= i < j < |ps| ==> ps[i] < ps[j])
            && (forall k: nat :: k in ps <==> k < |xs| && keep(xs[k]))
            && |Filter(xs, keep)| == |ps|
            && (forall i :: 0 <= i < |ps| ==> Filter(xs, keep)[i] == xs[ps[i]])
    decreases |xs|
  {
    if |xs| == 0 {
    } else {
      PositionsExact(xs[..|xs| - 1], keep);
    }
  }

  /** Everything a filter lets through is kept and comes from the list. */
  lemma FilterElements<T>(xs: seq<T>, keep: T -> bool, i: nat)
    requires i < |Filter(xs, keep)|
    ensures keep(Filter(xs, keep)[i])
    ensures exists k :: 0 <= k < |xs| && xs[k] == Filter(xs, keep)[i]
  {
    PositionsExact(xs, keep);
    assert Positions(xs, keep)[i] in Positions(xs, keep);
  }

  /** A filter after a coarser one is the finer one alone. */
  lemma {:induction false} FilterOfFilter<T>(xs: seq<T>, coarse: T -> bool, fine: T -> bool)
    requires forall i :: 0 <= i < |xs| && fine(xs[i]) ==> coarse(xs[i])
    ensures Filter(Filter(xs, coarse), fine) == Filter(xs, fine)
    decreases |xs|
  {
    if |xs| == 0 {
    } else {
      var n := |xs| - 1;
      var x, front := xs[n], Filter(xs[..n], coarse);
      FilterOfFilter(xs[..n], coarse, fine);
      if coarse(x) {
        FilterSnoc(front, x, fine);
      } else {
        assert Filter(xs, coarse) == front;
        assert Filter(xs, fine) == Filter(xs[..n], fine);
      }
    }
  }

  /** Equal conditions pick equal positions, whatever list they are asked of. */
  lemma {:induction false} PositionsAlike<T, U>(xs: seq<T>, ys: seq<U>, keep: T -> bool, hold: U -> bool)
    requires |xs| == |ys|
    requires forall i :: 0 <= i < |xs| ==> keep(xs[i]) == hold(ys[i])
    ensures Positions(xs, keep) == Positions(ys, hold)
    decreases |xs|
  {
    if |xs| == 0 {
    } else {
      PositionsAlike(xs[..|xs| - 1], ys[..|ys| - 1], keep, hold);
    }
  }

  lemma {:induction false} NoPositions<T>(xs: seq<T>, keep: T -> bool)
    requires forall i :: 0 <= i < |xs| ==> !keep(xs[i])
    ensures Positions(xs, keep) == []
    decreases |xs|
  {
    if |xs| == 0 {
    } else {
      NoPositions(xs[..|xs| - 1], keep);
    }
  }

  /** The elements at the given positions. */
  function At<T>(xs: seq<T>, ps: seq<nat>): (ys: seq<T>)
    requires forall i :: 0 <= i < |ps| ==> ps[i] < |xs|
    ensures |ys| == |ps| && forall i :: 0 <= i < |ps| ==> ys[i] == xs[ps[i]]
  {
    seq(|ps|, i requires 0 <= i < |ps| => xs[ps[i]])
  }
}
