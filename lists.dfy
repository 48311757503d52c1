/** Python list idioms used throughout: comprehension with a filter, `zip`, slices that clamp, and `sum`. */
module Lists {

  /** `[x for x in xs if keep(x)]`. */
  function Keep<T>(xs: seq<T>, keep: T -> bool): (kept: seq<T>)
    ensures |kept| <= |xs|
    ensures forall i :: 0 <= i < |kept| ==> kept[i] in xs && keep(kept[i])
    ensures forall i :: 0 <= i < |xs| && keep(xs[i]) ==> xs[i] in kept
  {
    if xs == [] then [] else (if keep(xs[0]) then [xs[0]] else []) + Keep(xs[1..], keep)
  }

  /** Filtering keeps relative order: it distributes over concatenation. */
  lemma {:induction false} KeepAppend<T>(xs: seq<T>, ys: seq<T>, keep: T -> bool)
    ensures Keep(xs + ys, keep) == Keep(xs, keep) + Keep(ys, keep)
    decreases |xs|
  {
    if xs == [] {
      assert xs + ys == ys;
    } else {
      KeepAppend(xs[1..], ys, keep);
      assert (xs + ys)[1..] == xs[1..] + ys;
    }
  }

  /** What the filter keeps and what it drops account for every element. */
  lemma {:induction false} KeepPartitions<T>(xs: seq<T>, keep: T -> bool)
    ensures |Keep(xs, keep)| + |Keep(xs, x => !keep(x))| == |xs|
    decreases |xs|
  {
    if xs != [] {
      KeepPartitions(xs[1..], keep);
    }
  }

  /** The filter keeps everything exactly when every element passes. */
  lemma {:induction false} KeepAllIffAllPass<T>(xs: seq<T>, keep: T -> bool)
    ensures |Keep(xs, keep)| == |xs| <==> forall i :: 0 <= i < |xs| ==> keep(xs[i])
    decreases |xs|
  {
    if xs != [] {
      KeepAllIffAllPass(xs[1..], keep);
      assert forall i :: 0 < i < |xs| ==> xs[i] == xs[1..][i - 1];
      if !keep(xs[0]) {
        assert |Keep(xs, keep)| == |Keep(xs[1..], keep)| <= |xs[1..]| < |xs|;
      }
    }
  }

  /** `zip(xs, ys)`, which stops at the shorter list. */
  function Zip<A, B>(xs: seq<A>, ys: seq<B>): (zs: seq<(A, B)>)
    ensures |zs| == Min(|xs|, |ys|)
    ensures forall i :: 0 <= i < |zs| ==> zs[i] == (xs[i], ys[i])
  {
    if xs == [] || ys == [] then [] else [(xs[0], ys[0])] + Zip(xs[1..], ys[1..])
  }

  function Min(a: int, b: int): int
  {
    if a < b then a else b
  }

  /** `sum(ns)`. */
  function Sum(ns: seq<nat>): nat
  {
    if ns == [] then 0 else ns[0] + Sum(ns[1..])
  }

  lemma {:induction false} SumAppend(xs: seq<nat>, ys: seq<nat>)
    ensures Sum(xs + ys) == Sum(xs) + Sum(ys)
    decreases |xs|
  {
    if xs == [] {
      assert xs + ys == ys;
    } else {
      SumAppend(xs[1..], ys);
      assert (xs + ys)[1..] == xs[1..] + ys;
    }
  }
}
