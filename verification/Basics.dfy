/** Small types shared by every component of the model. */
module Basics {
  datatype Option<+T> = None | Some(value: T)

  /** The numbers below `n`. */
  function Below(n: nat): (s: set<nat>)
    ensures forall x: nat :: x in s <==> x < n
  {
    if n == 0 then {} else Below(n - 1) + {n - 1}
  }

  lemma {:induction false} BelowSize(n: nat)
    ensures |Below(n)| == n
  {
    if n > 0 {
      BelowSize(n - 1);
      OneMore(Below(n - 1), n - 1);
    }
  }

  lemma OneMore(s: set<nat>, x: nat)
    requires x !in s
    ensures |s + {x}| == |s| + 1
  {
  }

  /** A list of distinct numbers below `n` has at most `n` entries. */
  lemma {:induction false} Pigeonhole(s: seq<nat>, n: nat)
    requires forall i :: 0 <= i < |s| ==> s[i] < n
    requires forall i, j :: 0 <= i < j < |s| ==> s[i] != s[j]
    ensures |s| <= n
    decreases |s|
  {
    if s != [] {
      var last := s[|s| - 1];
      var init := s[..|s| - 1];
      // replace the value n - 1 by the last one, so that all remaining values lie below n - 1
      var shrunk := seq(|init|, i requires 0 <= i < |init| => if init[i] == n - 1 then last else init[i]);
      assert n > 0 by { assert s[0] < n; }
      Pigeonhole(shrunk, n - 1);
    }
  }

  function Max(a: int, b: int): (m: int)
    ensures m >= a && m >= b && (m == a || m == b)
  {
    if a < b then b else a
  }

  function Sum(xs: seq<nat>): (total: nat) {
    if xs == [] then 0 else xs[0] + Sum(xs[1..])
  }
}
