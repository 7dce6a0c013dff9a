/** How far a distribution of shards over groups is from an even one.  `c` lists how many shards each group has, and
    `idle` is how many nobody has. */
module Loads {
  import opened Basics

  function Above(x: nat, q: nat): nat {
    if x > q then x - q else 0
  }

  ghost function Sum(c: seq<nat>): nat {
    if c == [] then 0 else Sum(c[..|c| - 1]) + c[|c| - 1]
  }

  // The shards above `q` a group, the shards missing up to `q` a group, and the number of groups above `q`.
  ghost function Excess(c: seq<nat>, q: nat): nat {
    if c == [] then 0 else Excess(c[..|c| - 1], q) + Above(c[|c| - 1], q)
  }

  ghost function Deficit(c: seq<nat>, q: nat): nat {
    if c == [] then 0 else Deficit(c[..|c| - 1], q) + Above(q, c[|c| - 1])
  }

  ghost function Over(c: seq<nat>, q: nat): (k: nat)
    ensures k <= |c|
  {
    if c == [] then 0 else Over(c[..|c| - 1], q) + if c[|c| - 1] > q then 1 else 0
  }

  ghost predicate Even(c: seq<nat>) {
    forall i, j :: 0 <= i < |c| && 0 <= j < |c| ==> c[i] <= c[j] + 1
  }

  // ---------------------------------------------------------------- the sums

  // `q` for each of `k` groups.
  ghost function Times(q: nat, k: nat): nat {
    q * k
  }

  lemma {:induction false} Balance(c: seq<nat>, q: nat)
    ensures Sum(c) + Deficit(c, q) == Times(q, |c|) + Excess(c, q)
  {
    if c != [] {
      Balance(c[..|c| - 1], q);
      assert Times(q, |c|) == Times(q, |c| - 1) + q;
    }
  }

  lemma {:induction false} Bounds(c: seq<nat>, q: nat)
    ensures Over(c, q) <= Excess(c, q)
    ensures (exists i :: 0 <= i < |c| && c[i] >= q + 2) ==> Over(c, q) < Excess(c, q)
    ensures (forall i :: 0 <= i < |c| ==> c[i] <= q + 1) ==> Over(c, q) == Excess(c, q)
    ensures (forall i :: 0 <= i < |c| ==> c[i] > q) ==> Over(c, q) == |c|
    ensures (forall i :: 0 <= i < |c| ==> c[i] <= q) ==> Excess(c, q) == 0
    ensures (forall i :: 0 <= i < |c| ==> c[i] >= q) <==> Deficit(c, q) == 0
  {
    if c != [] {
      var d := c[..|c| - 1];
      Bounds(d, q);
      assert forall i :: 0 <= i < |d| ==> d[i] == c[i];
      if i :| 0 <= i < |c| && c[i] >= q + 2 {
        assert i < |d| ==> d[i] >= q + 2;
      }
    }
  }

  lemma {:induction false} Update(c: seq<nat>, i: nat, v: nat, q: nat)
    requires i < |c|
    ensures Sum(c[i := v]) == Sum(c) - c[i] + v
    ensures Excess(c[i := v], q) == Excess(c, q) - Above(c[i], q) + Above(v, q)
    ensures Over(c[i := v], q) == Over(c, q) - (if c[i] > q then 1 else 0) + if v > q then 1 else 0
  {
    var d := c[..|c| - 1];
    if i == |c| - 1 {
      assert c[i := v][..|c| - 1] == d;
    } else {
      Update(d, i, v, q);
      assert c[i := v][..|c| - 1] == d[i := v];
    }
  }

  // ---------------------------------------------------------------- the distance

  /** The least number of shards that must change hands to make the distribution even. */
  ghost function Distance(idle: nat, c: seq<nat>): int
    requires |c| > 0
  {
    var n := idle + Sum(c);
    idle + Excess(c, n / |c|) - Min(Over(c, n / |c|), n % |c|)
  }

  lemma DistanceBounded(idle: nat, c: seq<nat>)
    requires |c| > 0
    ensures Distance(idle, c) >= 0
  {
    Bounds(c, (idle + Sum(c)) / |c|);
  }

  lemma Division(n: nat, k: nat)
    requires k > 0
    ensures n == (n / k) * k + n % k && n % k < k
  {
  }

  lemma Multiples(a: nat, b: nat, k: nat)
    requires a < b
    ensures a * k + k <= b * k
  {
    assert b * k == (b - a - 1) * k + a * k + k;
  }

  lemma DivisionUnique(n: nat, k: nat, m: nat, x: nat)
    requires k > 0 && x < k && n == m * k + x
    ensures n / k == m && n % k == x
  {
    Division(n, k);
    if m < n / k {
      Multiples(m, n / k, k);
    } else if n / k < m {
      Multiples(n / k, m, k);
    }
  }

  lemma Quotient(n: nat, k: nat) returns (q: nat, r: nat)
    requires k > 0
    ensures n == Times(q, k) + r && r < k
  {
    q, r := n / k, n % k;
    Division(n, k);
  }

  // With `q` and `r` the quotient and remainder of the number of shards by the number of groups.
  lemma DistanceIs(idle: nat, c: seq<nat>, q: nat, r: nat)
    requires |c| > 0 && r < |c| && idle + Sum(c) == Times(q, |c|) + r
    ensures Distance(idle, c) == idle + Excess(c, q) - Min(Over(c, q), r)
  {
    DivisionUnique(idle + Sum(c), |c|, q, r);
  }

  // The move of one idle shard to the smallest group.
  lemma IdleMove(idle: nat, c: seq<nat>, m: nat)
    requires idle > 0 && m < |c| && forall i :: 0 <= i < |c| ==> c[m] <= c[i]
    ensures Distance(idle - 1, c[m := c[m] + 1]) == Distance(idle, c) - 1
  {
    hide Distance, Sum, Excess, Over, Deficit, Times;
    var q, r := Quotient(idle + Sum(c), |c|);
    Balance(c, q);
    Bounds(c, q);
    Update(c, m, c[m] + 1, q);
    DistanceIs(idle, c, q, r);
    DistanceIs(idle - 1, c[m := c[m] + 1], q, r);
    IdleCases(c[m], q, r, |c|, idle, Sum(c), Times(q, |c|), Excess(c, q), Over(c, q), Deficit(c, q));
  }

  // The arithmetic of the move: `total` is `q` for each of the `k` groups.
  lemma IdleCases(x: nat, q: nat, r: nat, k: nat, idle: nat, sum: nat, total: nat, excess: nat, over: nat, deficit: nat)
    requires idle + sum == total + r && r < k && idle > 0 && sum + deficit == total + excess
    requires over <= excess && (x > q ==> over == k) && (x >= q ==> deficit == 0)
    ensures x <= q
    ensures
      var excess', over' := excess + Above(x + 1, q), over + if x + 1 > q then 1 else 0;
      idle - 1 + excess' - Min(over', r) == idle + excess - Min(over, r) - 1
  {
  }

  // The move of one shard from the largest group to the smallest one.
  lemma LevelMove(c: seq<nat>, M: nat, m: nat)
    requires M < |c| && m < |c| && c[m] + 1 < c[M]
    requires forall i :: 0 <= i < |c| ==> c[m] <= c[i] <= c[M]
    ensures Distance(0, c[M := c[M] - 1][m := c[m] + 1]) == Distance(0, c) - 1
  {
    hide Distance, Sum, Excess, Over, Deficit, Times;
    var q, r := Quotient(Sum(c), |c|);
    Balance(c, q);
    Bounds(c, q);
    var d := c[M := c[M] - 1];
    Update(c, M, c[M] - 1, q);
    Update(d, m, c[m] + 1, q);
    DistanceIs(0, c, q, r);
    DistanceIs(0, d[m := c[m] + 1], q, r);
    LevelCases(c[M], c[m], q, r, |c|, Sum(c), Times(q, |c|), Excess(c, q), Over(c, q), Deficit(c, q));
  }

  lemma LevelCases(x: nat, y: nat, q: nat, r: nat, k: nat, sum: nat, total: nat, excess: nat, over: nat, deficit: nat)
    requires y + 1 < x && sum == total + r && r < k && sum + deficit == total + excess && over <= excess
    requires (x >= q + 2 ==> over < excess) && (x <= q + 1 ==> over == excess) && (x <= q ==> excess == 0)
    requires (y > q ==> over == k) && (y >= q <==> deficit == 0)
    ensures y <= q < x
    ensures
      var excess' := excess - Above(x, q) + Above(x - 1, q) + Above(y + 1, q);
      var over' := over - (if x > q then 1 else 0) + (if x - 1 > q then 1 else 0) + if y + 1 > q then 1 else 0;
      excess' - Min(over', r) == excess - Min(over, r) - 1
  {
  }

  // An even distribution has nothing left to move.
  lemma EvenParts(c: seq<nat>, m: nat)
    requires m < |c| && Even(c) && forall i :: 0 <= i < |c| ==> c[m] <= c[i]
    ensures Sum(c) / |c| == c[m] && Over(c, c[m]) == Sum(c) % |c|
  {
    var q := c[m];
    Balance(c, q);
    Bounds(c, q);
    if Over(c, q) == |c| {
      AllOver(c, q, m);
    }
    DivisionUnique(Sum(c), |c|, q, Over(c, q));
  }

  lemma {:induction false} AllOver(c: seq<nat>, q: nat, m: nat)
    requires m < |c| && Over(c, q) == |c|
    ensures c[m] > q
  {
    if m < |c| - 1 {
      AllOver(c[..|c| - 1], q, m);
    }
  }

  // Every even distribution `b` of as many shards takes more than `Distance` shards away from the groups.
  ghost function Lost(c: seq<nat>, b: seq<nat>): nat
    requires |c| == |b|
  {
    if c == [] then 0 else Lost(c[..|c| - 1], b[..|b| - 1]) + Above(c[|c| - 1], b[|b| - 1])
  }

  lemma {:induction false} LostBound(c: seq<nat>, b: seq<nat>, q: nat) returns (x: nat)
    requires |c| == |b| && forall i :: 0 <= i < |b| ==> q <= b[i] <= q + 1
    ensures x <= Over(c, q) && x <= Over(b, q) && Lost(c, b) + x >= Excess(c, q)
  {
    x := 0;
    if c != [] {
      x := LostBound(c[..|c| - 1], b[..|b| - 1], q);
      if c[|c| - 1] > q && b[|b| - 1] > q {
        x := x + 1;
      }
    }
  }

  lemma {:induction false} Smallest(c: seq<nat>) returns (m: nat)
    requires c != []
    ensures m < |c| && forall i :: 0 <= i < |c| ==> c[m] <= c[i]
  {
    m := |c| - 1;
    if |c| > 1 {
      var d := c[..|c| - 1];
      var k := Smallest(d);
      assert forall i :: 0 <= i < |d| ==> d[i] == c[i];
      if c[k] < c[m] {
        m := k;
      }
    }
  }

  lemma EvenLoses(idle: nat, c: seq<nat>, b: seq<nat>)
    requires |c| == |b| > 0 && Even(b) && Sum(b) == idle + Sum(c)
    ensures idle + Lost(c, b) >= Distance(idle, c)
  {
    var m := Smallest(b);
    EvenParts(b, m);
    var x := LostBound(c, b, b[m]);
  }

  lemma EvenIsZero(c: seq<nat>)
    requires |c| > 0 && Even(c)
    ensures Distance(0, c) == 0
  {
    var m := Smallest(c);
    EvenParts(c, m);
    Bounds(c, c[m]);
  }
}
