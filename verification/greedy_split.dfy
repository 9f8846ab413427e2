/** Splitting a sequence of weights into consecutive parts of bounded length and bounded sum by
    always taking the longest part that fits, and why no other split has fewer parts.

    Both the chunks of a long log message and the batches of log events are such splits. */
module GreedySplit {

  function Sum(w: seq<nat>): nat {
    if w == [] then 0 else w[0] + Sum(w[1..])
  }

  lemma SumAppend(a: seq<nat>, b: seq<nat>)
    ensures Sum(a + b) == Sum(a) + Sum(b)
  {
    if a == [] {
      assert a + b == b;
    } else {
      assert (a + b)[1..] == a[1..] + b;
      SumAppend(a[1..], b);
    }
  }

  lemma SumOfOne(x: nat)
    ensures Sum([x]) == x
  {
    var w := [x];
    assert Sum(w) == w[0] + Sum(w[1..]) && w[1..] == [];
  }

  predicate Fits(w: seq<nat>, maxCount: nat, maxSum: nat) {
    |w| <= maxCount && Sum(w) <= maxSum
  }

  /** The length of the longest prefix that fits. */
  function Take(w: seq<nat>, maxCount: nat, maxSum: nat): (n: nat)
    ensures n <= |w|
  {
    if w == [] || maxCount == 0 || w[0] > maxSum then 0
    else 1 + Take(w[1..], maxCount - 1, maxSum - w[0])
  }

  /** A prefix fits exactly when it is no longer than that. */
  lemma {:induction false} TakeIsLongest(w: seq<nat>, maxCount: nat, maxSum: nat, n: nat)
    requires n <= |w|
    ensures Fits(w[..n], maxCount, maxSum) <==> n <= Take(w, maxCount, maxSum)
    decreases w
  {
    if n > 0 {
      assert w[..n][1..] == w[1..][..n - 1];
      if maxCount > 0 && w[0] <= maxSum {
        TakeIsLongest(w[1..], maxCount - 1, maxSum - w[0], n - 1);
      }
    }
  }

  /** Every weight fits a part of its own. */
  predicate Splittable(w: seq<nat>, maxCount: nat, maxSum: nat) {
    maxCount >= 1 && forall i | 0 <= i < |w| :: w[i] <= maxSum
  }

  /** The number of parts of the greedy split. */
  function GreedyParts(w: seq<nat>, maxCount: nat, maxSum: nat): nat
    requires Splittable(w, maxCount, maxSum)
    decreases |w|
  {
    if w == [] then 0 else 1 + GreedyParts(w[Take(w, maxCount, maxSum)..], maxCount, maxSum)
  }

  function Flatten<T>(parts: seq<seq<T>>): seq<T> {
    if parts == [] then [] else parts[0] + Flatten(parts[1..])
  }

  lemma {:induction false} FlattenAppend<T>(a: seq<seq<T>>, b: seq<seq<T>>)
    ensures Flatten(a + b) == Flatten(a) + Flatten(b)
  {
    if a == [] {
      assert a + b == b;
    } else {
      assert (a + b)[1..] == a[1..] + b;
      FlattenAppend(a[1..], b);
    }
  }

  lemma FlattenOne<T>(part: seq<T>)
    ensures Flatten([part]) == part
  {
    assert [part][1..] == [];
  }

  /** Dropping weights from the front never needs more parts. */
  lemma {:induction false} SuffixNeedsNoMore(w: seq<nat>, maxCount: nat, maxSum: nat, k: nat)
    requires Splittable(w, maxCount, maxSum) && k <= |w|
    ensures GreedyParts(w[k..], maxCount, maxSum) <= GreedyParts(w, maxCount, maxSum)
    decreases |w|
  {
    if k == |w| {
      assert w[k..] == [];
    } else {
      var t := Take(w, maxCount, maxSum);
      GreedyTakes(w, maxCount, maxSum);
      if k >= t {
        hide GreedyParts, Take;
        assert w[t..][k - t..] == w[k..];
        SuffixNeedsNoMore(w[t..], maxCount, maxSum, k - t);
      } else {
        var u := w[k..];
        var n := Take(u, maxCount, maxSum);
        GreedyTakes(u, maxCount, maxSum);
        SuffixTakesMore(w, maxCount, maxSum, k);
        hide GreedyParts, Take;
        assert w[t..][n - (t - k)..] == u[n..];
        SuffixNeedsNoMore(w[t..], maxCount, maxSum, n - (t - k));
      }
    }
  }

  lemma GreedyTakes(w: seq<nat>, maxCount: nat, maxSum: nat)
    requires Splittable(w, maxCount, maxSum) && w != []
    ensures Take(w, maxCount, maxSum) >= 1
    ensures GreedyParts(w, maxCount, maxSum) == 1 + GreedyParts(w[Take(w, maxCount, maxSum)..], maxCount, maxSum)
  {
  }

  /** What remains of the longest prefix behind position `k` fits as well. */
  lemma SuffixTakesMore(w: seq<nat>, maxCount: nat, maxSum: nat, k: nat)
    requires k <= Take(w, maxCount, maxSum)
    ensures Take(w, maxCount, maxSum) - k <= Take(w[k..], maxCount, maxSum)
  {
    var t, u := Take(w, maxCount, maxSum), w[k..];
    TakeIsLongest(w, maxCount, maxSum, t);
    hide Take, Sum;
    assert w[..t] == w[..k] + u[..t - k];
    SumAppend(w[..k], u[..t - k]);
    TakeIsLongest(u, maxCount, maxSum, t - k);
  }

  /** No split into consecutive parts that fit has fewer parts than the greedy one. */
  lemma {:induction false} GreedyIsFewest(w: seq<nat>, maxCount: nat, maxSum: nat, parts: seq<seq<nat>>)
    requires Splittable(w, maxCount, maxSum)
    requires Flatten(parts) == w && forall p | p in parts :: Fits(p, maxCount, maxSum)
    ensures GreedyParts(w, maxCount, maxSum) <= |parts|
    decreases |parts|
  {
    if parts != [] && w != [] {
      var first, rest := parts[0], Flatten(parts[1..]);
      var t := Take(w, maxCount, maxSum);
      assert first in parts && w[..|first|] == first;
      TakeIsLongest(w, maxCount, maxSum, |first|);
      assert w[|first|..] == rest;
      assert forall p | p in parts[1..] :: p in parts;
      GreedyIsFewest(rest, maxCount, maxSum, parts[1..]);
      assert rest[t - |first|..] == w[t..];
      SuffixNeedsNoMore(rest, maxCount, maxSum, t - |first|);
    }
  }
}
