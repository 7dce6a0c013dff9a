/** A ranking for depth-first searches: the path of the search, read as the digits of a number, only grows. */
module Rank {

  function Pow(b: nat, m: nat): nat {
    if m == 0 then 1 else b * Pow(b, m - 1)
  }

  // The value of the digits `d` in base `b`, filled up with zeros to `m` digits.
  ghost function Val(d: seq<nat>, m: nat, b: nat): nat
    requires |d| <= m
    decreases m
  {
    if d == [] then 0 else d[0] * Pow(b, m - 1) + Val(d[1..], m - 1, b)
  }

  lemma {:induction false} PowPositive(b: nat, m: nat)
    requires b > 0
    ensures Pow(b, m) > 0
  {
    if m > 0 {
      PowPositive(b, m - 1);
      assert b * Pow(b, m - 1) >= 1 * Pow(b, m - 1);
    }
  }

  lemma AtMost(x: nat, y: nat, c: nat)
    requires x <= y
    ensures x * c <= y * c
  {
  }

  lemma {:induction false} ValBound(d: seq<nat>, m: nat, b: nat)
    requires |d| <= m && b > 0 && forall i :: 0 <= i < |d| ==> d[i] < b
    ensures Val(d, m, b) < Pow(b, m)
    decreases m
  {
    PowPositive(b, m);
    if d != [] {
      ValBound(d[1..], m - 1, b);
      AtMost(d[0] + 1, b, Pow(b, m - 1));
      assert (d[0] + 1) * Pow(b, m - 1) == d[0] * Pow(b, m - 1) + Pow(b, m - 1);
    }
  }

  // `d` comes before `e` in dictionary order: they share `j` digits, and then `e` is larger or goes on.
  ghost predicate Before(d: seq<nat>, e: seq<nat>, j: nat) {
    && j < |e| && j <= |d| && d[..j] == e[..j]
    && (if j < |d| then d[j] < e[j] else 0 < e[j])
  }

  /** Dictionary order on paths is the order of their values. */
  lemma {:induction false} ValGrows(d: seq<nat>, e: seq<nat>, m: nat, b: nat, j: nat)
    requires |d| <= m && |e| <= m && b > 0 && forall i :: 0 <= i < |d| ==> d[i] < b
    requires Before(d, e, j)
    ensures Val(d, m, b) < Val(e, m, b)
    decreases j
  {
    if j == 0 {
      PowPositive(b, m - 1);
      if d == [] {
        AtMost(1, e[0], Pow(b, m - 1));
      } else {
        ValBound(d[1..], m - 1, b);
        AtMost(d[0] + 1, e[0], Pow(b, m - 1));
        assert (d[0] + 1) * Pow(b, m - 1) == d[0] * Pow(b, m - 1) + Pow(b, m - 1);
      }
    } else {
      assert d[0] == d[..j][0] == e[..j][0] == e[0];
      assert d[1..][..j - 1] == d[..j][1..] == e[..j][1..] == e[1..][..j - 1];
      ValGrows(d[1..], e[1..], m - 1, b, j - 1);
    }
  }
}
