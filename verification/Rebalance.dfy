/** The rebalancing of shards after groups join or leave: one shard at a time from the group with the most (or from
    nobody) to the group with the fewest.  For any number of shards and groups. */
module Rebalance {
  import opened Basics
  import opened Loads

  const MAX_INT := 0x7fff_ffff_ffff_ffff
  const MIN_INT := -0x8000_0000_0000_0000

  // A gid is any machine integer; 0 stands for nobody.
  type Gid = g: int | MIN_INT <= g <= MAX_INT witness 0

  // ---------------------------------------------------------------- assignments

  // The number of shards of group `g`.
  ghost function Count(a: seq<Gid>, g: Gid): nat {
    if a == [] then 0 else Count(a[..|a| - 1], g) + if a[|a| - 1] == g then 1 else 0
  }

  ghost function Tally(a: seq<Gid>, ks: seq<Gid>): (c: seq<nat>)
    ensures |c| == |ks| && forall i :: 0 <= i < |ks| ==> c[i] == Count(a, ks[i])
  {
    seq(|ks|, i requires 0 <= i < |ks| => Count(a, ks[i]))
  }

  // The number of shards two assignments disagree on.
  ghost function Changed(a: seq<Gid>, b: seq<Gid>): nat
    requires |a| == |b|
  {
    if a == [] then 0 else Changed(a[..|a| - 1], b[..|b| - 1]) + if a[|a| - 1] != b[|b| - 1] then 1 else 0
  }

  ghost predicate Distinct<T>(ks: seq<T>) {
    forall i, j :: 0 <= i < j < |ks| ==> ks[i] != ks[j]
  }

  // Every shard is on one of the groups, and their numbers of shards differ by at most one.
  ghost predicate Balanced(b: seq<Gid>, ks: seq<Gid>) {
    (forall s :: 0 <= s < |b| ==> b[s] in ks) && Even(Tally(b, ks))
  }

  // Every shard is on one of the groups or on nobody.
  ghost predicate Assigned(a: seq<Gid>, ks: seq<Gid>) {
    0 !in ks && Distinct(ks) && forall s :: 0 <= s < |a| ==> a[s] == 0 || a[s] in ks
  }

  lemma {:induction false} CountUpdate(a: seq<Gid>, s: nat, v: Gid, g: Gid)
    requires s < |a|
    ensures Count(a[s := v], g) == Count(a, g) - (if a[s] == g then 1 else 0) + if v == g then 1 else 0
  {
    var d := a[..|a| - 1];
    if s == |a| - 1 {
      assert a[s := v][..|a| - 1] == d;
    } else {
      CountUpdate(d, s, v, g);
      assert a[s := v][..|a| - 1] == d[s := v];
    }
  }

  lemma {:induction false} NoneCounted(ks: seq<Gid>)
    ensures Sum(Tally([], ks)) == 0
  {
    if ks != [] {
      NoneCounted(ks[..|ks| - 1]);
      assert Tally([], ks)[..|ks| - 1] == Tally([], ks[..|ks| - 1]);
    }
  }

  lemma {:induction false} AllCounted(a: seq<Gid>, ks: seq<Gid>)
    requires Assigned(a, ks)
    ensures Count(a, 0) + Sum(Tally(a, ks)) == |a|
  {
    if a == [] {
      NoneCounted(ks);
    } else {
      var d, x := a[..|a| - 1], a[|a| - 1];
      AllCounted(d, ks);
      if x == 0 {
        assert Tally(a, ks) == Tally(d, ks);
      } else {
        var i :| 0 <= i < |ks| && ks[i] == x;
        assert Tally(a, ks) == Tally(d, ks)[i := Count(d, x) + 1];
        Update(Tally(d, ks), i, Count(d, x) + 1, 0);
      }
    }
  }

  // What one more shard, `x` before and `y` after, adds to what the groups lose.
  lemma {:induction false} LostNext(a: seq<Gid>, b: seq<Gid>, x: Gid, y: Gid, ks: seq<Gid>)
    requires Distinct(ks)
    ensures Lost(Tally(a + [x], ks), Tally(b + [y], ks)) <= Lost(Tally(a, ks), Tally(b, ks)) + if x != y && x in ks then 1 else 0
  {
    if ks != [] {
      var js, k := ks[..|ks| - 1], ks[|ks| - 1];
      LostNext(a, b, x, y, js);
      TallyPrefix(a, ks);
      TallyPrefix(b, ks);
      TallyPrefix(a + [x], ks);
      TallyPrefix(b + [y], ks);
      CountNext(a, x, k);
      CountNext(b, y, k);
      assert k !in js;
      assert x in ks <==> x in js || x == k;
    }
  }

  lemma TallyPrefix(a: seq<Gid>, ks: seq<Gid>)
    requires ks != []
    ensures Tally(a, ks)[..|ks| - 1] == Tally(a, ks[..|ks| - 1])
  {
  }

  lemma CountNext(a: seq<Gid>, x: Gid, g: Gid)
    ensures Count(a + [x], g) == Count(a, g) + if x == g then 1 else 0
  {
    assert (a + [x])[..|a|] == a;
  }

  lemma {:induction false} NothingLost(ks: seq<Gid>)
    ensures Lost(Tally([], ks), Tally([], ks)) == 0
  {
    if ks != [] {
      TallyPrefix([], ks);
      NothingLost(ks[..|ks| - 1]);
    }
  }

  // Shards that nobody has, and shards that groups lose, have changed.
  lemma {:induction false} LostChanged(a: seq<Gid>, b: seq<Gid>, ks: seq<Gid>)
    requires |a| == |b| && Assigned(a, ks) && forall s :: 0 <= s < |b| ==> b[s] in ks
    ensures Changed(a, b) >= Count(a, 0) + Lost(Tally(a, ks), Tally(b, ks))
  {
    if a == [] {
      NothingLost(ks);
    } else {
      var a', b', x, y := a[..|a| - 1], b[..|b| - 1], a[|a| - 1], b[|b| - 1];
      LostChanged(a', b', ks);
      LostNext(a', b', x, y, ks);
      assert a == a' + [x] && b == b' + [y];
    }
  }

  ghost function DistanceOf(a: seq<Gid>, ks: seq<Gid>): int
    requires ks != []
  {
    Distance(Count(a, 0), Tally(a, ks))
  }

  /** No balanced assignment can be reached by changing fewer shards. */
  lemma EveryBalancedChanges(a: seq<Gid>, b: seq<Gid>, ks: seq<Gid>)
    requires |a| == |b| && ks != [] && Assigned(a, ks) && Balanced(b, ks)
    ensures Changed(a, b) >= DistanceOf(a, ks)
  {
    LostChanged(a, b, ks);
    AllCounted(a, ks);
    AllCounted(b, ks);
    NobodyHas(b, ks);
    EvenLoses(Count(a, 0), Tally(a, ks), Tally(b, ks));
  }

  lemma {:induction false} NobodyHas(b: seq<Gid>, ks: seq<Gid>)
    requires 0 !in ks && Distinct(ks) && forall s :: 0 <= s < |b| ==> b[s] in ks
    ensures Assigned(b, ks) && Count(b, 0) == 0
  {
    if b != [] {
      NobodyHas(b[..|b| - 1], ks);
    }
  }

  // ---------------------------------------------------------------- the moves

  // The lists of shards by group say the same as the assignment.
  ghost predicate Tallied(cnt: map<Gid, seq<nat>>, a: seq<Gid>) {
    && (forall s :: 0 <= s < |a| ==> a[s] in cnt)
    && (forall g :: g in cnt ==> |cnt[g]| == Count(a, g))
    && (forall g, i :: g in cnt && 0 <= i < |cnt[g]| ==> cnt[g][i] < |a| && a[cnt[g][i]] == g)
    && (forall g :: g in cnt ==> Distinct(cnt[g]))
  }

  predicate HasIdle(cnt: map<Gid, seq<nat>>) {
    0 in cnt && cnt[0] != []
  }

  // Nobody, if nobody has shards; else the first group with the most shards.
  ghost predicate IsMax(cnt: map<Gid, seq<nat>>, g: Gid) {
    && g in cnt
    && if HasIdle(cnt) then g == 0
       else g != 0 && forall h :: h in cnt && h != 0 ==> |cnt[h]| < |cnt[g]| || (|cnt[h]| == |cnt[g]| && g <= h)
  }

  // The first group with the fewest shards.
  ghost predicate IsMin(cnt: map<Gid, seq<nat>>, g: Gid) {
    g in cnt && g != 0 && forall h :: h in cnt && h != 0 ==> |cnt[g]| < |cnt[h]| || (|cnt[g]| == |cnt[h]| && g <= h)
  }

  lemma OneMaxOneMin(cnt: map<Gid, seq<nat>>, g: Gid, h: Gid)
    ensures IsMax(cnt, g) && IsMax(cnt, h) ==> g == h
    ensures IsMin(cnt, g) && IsMin(cnt, h) ==> g == h
  {
  }

  predicate Done(cnt: map<Gid, seq<nat>>, M: Gid, m: Gid)
    requires M in cnt && m in cnt
  {
    M != 0 && |cnt[M]| <= |cnt[m]| + 1
  }

  function Moved(cnt: map<Gid, seq<nat>>, M: Gid, m: Gid): map<Gid, seq<nat>>
    requires M in cnt && m in cnt && cnt[M] != []
  {
    var cnt1 := cnt[M := cnt[M][1..]];
    cnt1[m := cnt1[m] + [cnt[M][0]]]
  }

  // `ks` lists the groups.
  ghost predicate Enumerates(cnt: map<Gid, seq<nat>>, ks: seq<Gid>) {
    Distinct(ks) && ks != [] && forall g :: g in ks <==> g in cnt && g != 0
  }

  lemma MaxHasShards(cnt: map<Gid, seq<nat>>, M: Gid, m: Gid)
    requires IsMax(cnt, M) && IsMin(cnt, m) && !Done(cnt, M, m)
    ensures cnt[M] != [] && M != m
  {
  }

  lemma MoveTallied(cnt: map<Gid, seq<nat>>, a: seq<Gid>, M: Gid, m: Gid)
    requires Tallied(cnt, a) && M in cnt && m in cnt && M != m && cnt[M] != []
    ensures cnt[M][0] < |a| && Tallied(Moved(cnt, M, m), a[cnt[M][0] := m])
  {
    var s := cnt[M][0];
    var a', cnt' := a[s := m], Moved(cnt, M, m);
    assert a[s] == M;
    forall g | g in cnt' ensures |cnt'[g]| == Count(a', g) && Distinct(cnt'[g]) {
      CountUpdate(a, s, m, g);
    }
    forall g, i | g in cnt' && 0 <= i < |cnt'[g]| ensures cnt'[g][i] < |a'| && a'[cnt'[g][i]] == g {
      if g == M {
        assert cnt'[g][i] == cnt[M][i + 1];
      } else if g == m && i < |cnt[m]| {
        assert cnt'[g][i] == cnt[m][i];
      }
    }
  }

  lemma TallyAfter(a: seq<Gid>, s: nat, v: Gid, ks: seq<Gid>, j: nat)
    requires s < |a| && Distinct(ks) && j < |ks| && ks[j] == v && a[s] !in ks
    ensures Tally(a[s := v], ks) == Tally(a, ks)[j := Tally(a, ks)[j] + 1]
  {
    var t := Tally(a, ks)[j := Tally(a, ks)[j] + 1];
    forall i | 0 <= i < |ks| ensures Tally(a[s := v], ks)[i] == t[i] {
      CountUpdate(a, s, v, ks[i]);
    }
  }

  lemma TallyAcross(a: seq<Gid>, s: nat, v: Gid, ks: seq<Gid>, i: nat, j: nat)
    requires s < |a| && Distinct(ks) && i < |ks| && j < |ks| && ks[i] == a[s] && ks[j] == v && i != j
    ensures Count(a, ks[i]) > 0
    ensures Tally(a[s := v], ks) == Tally(a, ks)[i := Tally(a, ks)[i] - 1][j := Tally(a, ks)[j] + 1]
  {
    CountUpdate(a, s, v, ks[i]);
    var t := Tally(a, ks)[i := Tally(a, ks)[i] - 1][j := Tally(a, ks)[j] + 1];
    forall k | 0 <= k < |ks| ensures Tally(a[s := v], ks)[k] == t[k] {
      CountUpdate(a, s, v, ks[k]);
    }
  }

  /** Every move brings the assignment exactly one step closer to every balanced one. */
  lemma MoveCloser(cnt: map<Gid, seq<nat>>, a: seq<Gid>, M: Gid, m: Gid, ks: seq<Gid>)
    requires Tallied(cnt, a) && Enumerates(cnt, ks) && IsMax(cnt, M) && IsMin(cnt, m) && !Done(cnt, M, m)
    ensures cnt[M] != [] && cnt[M][0] < |a|
    ensures DistanceOf(a[cnt[M][0] := m], ks) == DistanceOf(a, ks) - 1
  {
    hide Distance, Count;
    MaxHasShards(cnt, M, m);
    var s := cnt[M][0];
    assert a[s] == M;
    var j :| 0 <= j < |ks| && ks[j] == m;
    var c := Tally(a, ks);
    CountUpdate(a, s, m, 0);
    if M == 0 {
      TallyAfter(a, s, m, ks, j);
      IdleMove(Count(a, 0), c, j);
    } else {
      var i :| 0 <= i < |ks| && ks[i] == M;
      NoIdle(cnt, a);
      TallyAcross(a, s, m, ks, i, j);
      LevelMove(c, i, j);
    }
  }

  lemma {:induction false} NotCounted(a: seq<Gid>, g: Gid)
    requires forall s :: 0 <= s < |a| ==> a[s] != g
    ensures Count(a, g) == 0
  {
    if a != [] {
      NotCounted(a[..|a| - 1], g);
    }
  }

  lemma NoIdle(cnt: map<Gid, seq<nat>>, a: seq<Gid>)
    requires Tallied(cnt, a) && !HasIdle(cnt)
    ensures Count(a, 0) == 0
  {
    if 0 !in cnt {
      NotCounted(a, 0);
    }
  }

  // When no move is left, the assignment is balanced.
  lemma DoneBalanced(cnt: map<Gid, seq<nat>>, a: seq<Gid>, M: Gid, m: Gid, ks: seq<Gid>)
    requires Tallied(cnt, a) && Enumerates(cnt, ks) && IsMax(cnt, M) && IsMin(cnt, m) && Done(cnt, M, m)
    ensures Balanced(a, ks) && DistanceOf(a, ks) == 0
  {
    NoIdle(cnt, a);
    forall s | 0 <= s < |a| ensures a[s] in ks {
      if a[s] == 0 {
        Counted(a, s);
      }
    }
    var c := Tally(a, ks);
    forall i, j | 0 <= i < |c| && 0 <= j < |c| ensures c[i] <= c[j] + 1 {
      assert ks[i] in cnt && ks[j] in cnt;
    }
    EvenIsZero(c);
  }

  lemma {:induction false} Counted(a: seq<Gid>, s: nat)
    requires s < |a|
    ensures Count(a, a[s]) > 0
  {
    if s < |a| - 1 {
      Counted(a[..|a| - 1], s);
    }
  }

  lemma TalliedAssigned(cnt: map<Gid, seq<nat>>, a: seq<Gid>, ks: seq<Gid>)
    requires Tallied(cnt, a) && Enumerates(cnt, ks)
    ensures Assigned(a, ks)
  {
  }

  // ---------------------------------------------------------------- the whole loop

  lemma {:induction false} MinExists(cnt: map<Gid, seq<nat>>, ks: seq<Gid>) returns (m: Gid)
    requires ks != [] && forall i :: 0 <= i < |ks| ==> ks[i] in cnt
    ensures m in ks && forall i :: 0 <= i < |ks| ==>
      |cnt[m]| < |cnt[ks[i]]| || (|cnt[m]| == |cnt[ks[i]]| && m <= ks[i])
  {
    m := ks[0];
    if |ks| > 1 {
      m := MinExists(cnt, ks[1..]);
      if |cnt[ks[0]]| < |cnt[m]| || (|cnt[ks[0]]| == |cnt[m]| && ks[0] < m) {
        m := ks[0];
      }
      assert forall i :: 0 < i < |ks| ==> ks[i] == ks[1..][i - 1];
    }
  }

  lemma {:induction false} MaxExists(cnt: map<Gid, seq<nat>>, ks: seq<Gid>) returns (M: Gid)
    requires ks != [] && forall i :: 0 <= i < |ks| ==> ks[i] in cnt
    ensures M in ks && forall i :: 0 <= i < |ks| ==>
      |cnt[ks[i]]| < |cnt[M]| || (|cnt[ks[i]]| == |cnt[M]| && M <= ks[i])
  {
    M := ks[0];
    if |ks| > 1 {
      M := MaxExists(cnt, ks[1..]);
      if |cnt[ks[0]]| > |cnt[M]| || (|cnt[ks[0]]| == |cnt[M]| && ks[0] < M) {
        M := ks[0];
      }
      assert forall i :: 0 < i < |ks| ==> ks[i] == ks[1..][i - 1];
    }
  }

  lemma ExtremesExist(cnt: map<Gid, seq<nat>>, ks: seq<Gid>)
    requires Enumerates(cnt, ks)
    ensures (exists M :: IsMax(cnt, M)) && (exists m :: IsMin(cnt, m))
  {
    forall i | 0 <= i < |ks| ensures ks[i] in cnt {
      assert ks[i] in ks;
    }
    var m := MinExists(cnt, ks);
    assert IsMin(cnt, m);
    if HasIdle(cnt) {
      assert IsMax(cnt, 0);
    } else {
      var M := MaxExists(cnt, ks);
      assert IsMax(cnt, M);
    }
  }

  ghost function MaxOf(cnt: map<Gid, seq<nat>>, ks: seq<Gid>): (M: Gid)
    requires Enumerates(cnt, ks)
    ensures IsMax(cnt, M)
  {
    ExtremesExist(cnt, ks);
    var M :| IsMax(cnt, M);
    M
  }

  ghost function MinOf(cnt: map<Gid, seq<nat>>, ks: seq<Gid>): (m: Gid)
    requires Enumerates(cnt, ks)
    ensures IsMin(cnt, m)
  {
    ExtremesExist(cnt, ks);
    var m :| IsMin(cnt, m);
    m
  }

  // The shards that are moved, in order.
  ghost function Moves(cnt: map<Gid, seq<nat>>, a: seq<Gid>, ks: seq<Gid>): (r: seq<nat>)
    requires Tallied(cnt, a) && Enumerates(cnt, ks)
    decreases DistanceOf(a, ks)
  {
    var M, m := MaxOf(cnt, ks), MinOf(cnt, ks);
    if Done(cnt, M, m) then []
    else
      MoveReady(cnt, a, M, m, ks);
      [cnt[M][0]] + Moves(Moved(cnt, M, m), a[cnt[M][0] := m], ks)
  }

  // The assignment when no move is left.
  ghost function Rebalanced(cnt: map<Gid, seq<nat>>, a: seq<Gid>, ks: seq<Gid>): (r: seq<Gid>)
    requires Tallied(cnt, a) && Enumerates(cnt, ks)
    decreases DistanceOf(a, ks)
  {
    var M, m := MaxOf(cnt, ks), MinOf(cnt, ks);
    if Done(cnt, M, m) then a
    else
      MoveReady(cnt, a, M, m, ks);
      Rebalanced(Moved(cnt, M, m), a[cnt[M][0] := m], ks)
  }

  lemma MoveReady(cnt: map<Gid, seq<nat>>, a: seq<Gid>, M: Gid, m: Gid, ks: seq<Gid>)
    requires Tallied(cnt, a) && Enumerates(cnt, ks) && IsMax(cnt, M) && IsMin(cnt, m) && !Done(cnt, M, m)
    ensures cnt[M] != [] && M != m && cnt[M][0] < |a|
    ensures Tallied(Moved(cnt, M, m), a[cnt[M][0] := m]) && Enumerates(Moved(cnt, M, m), ks)
    ensures 0 <= DistanceOf(a[cnt[M][0] := m], ks) == DistanceOf(a, ks) - 1
  {
    hide Tallied, DistanceOf;
    MaxHasShards(cnt, M, m);
    MoveTallied(cnt, a, M, m);
    MoveCloser(cnt, a, M, m, ks);
    DistanceNat(a[cnt[M][0] := m], ks);
  }

  lemma DistanceNat(a: seq<Gid>, ks: seq<Gid>)
    requires ks != []
    ensures DistanceOf(a, ks) >= 0
  {
    DistanceBounded(Count(a, 0), Tally(a, ks));
  }

  lemma {:induction false} ChangedOne(a: seq<Gid>, s: nat, v: Gid, r: seq<Gid>)
    requires s < |a| == |r|
    ensures Changed(a, r) <= Changed(a[s := v], r) + 1
  {
    var d := a[..|a| - 1];
    if s == |a| - 1 {
      assert a[s := v][..|a| - 1] == d;
    } else {
      ChangedOne(d, s, v, r[..|a| - 1]);
      assert a[s := v][..|a| - 1] == d[s := v];
    }
  }

  lemma {:induction false} ChangedNone(a: seq<Gid>)
    ensures Changed(a, a) == 0
  {
    if a != [] {
      ChangedNone(a[..|a| - 1]);
    }
  }

  lemma {:induction false} RebalancedMeaning(cnt: map<Gid, seq<nat>>, a: seq<Gid>, ks: seq<Gid>)
    requires Tallied(cnt, a) && Enumerates(cnt, ks)
    ensures |Rebalanced(cnt, a, ks)| == |a| && Balanced(Rebalanced(cnt, a, ks), ks)
    ensures |Moves(cnt, a, ks)| == DistanceOf(a, ks)
    ensures Changed(a, Rebalanced(cnt, a, ks)) <= DistanceOf(a, ks)
    decreases DistanceOf(a, ks)
  {
    hide Tallied, Enumerates, DistanceOf, Balanced, Moved, Changed;
    var M, m := MaxOf(cnt, ks), MinOf(cnt, ks);
    if Done(cnt, M, m) {
      DoneBalanced(cnt, a, M, m, ks);
      ChangedNone(a);
    } else {
      MoveReady(cnt, a, M, m, ks);
      RebalancedMeaning(Moved(cnt, M, m), a[cnt[M][0] := m], ks);
      ChangedOne(a, cnt[M][0], m, Rebalanced(Moved(cnt, M, m), a[cnt[M][0] := m], ks));
    }
  }

  /** The loop ends with a balanced assignment, and no balanced assignment leaves more shards where they were. */
  lemma MinimalMovement(cnt: map<Gid, seq<nat>>, a: seq<Gid>, ks: seq<Gid>, b: seq<Gid>)
    requires Tallied(cnt, a) && Enumerates(cnt, ks) && |b| == |a| && Balanced(b, ks)
    ensures |Rebalanced(cnt, a, ks)| == |a| && Balanced(Rebalanced(cnt, a, ks), ks)
    ensures Changed(a, Rebalanced(cnt, a, ks)) <= Changed(a, b)
  {
    hide Balanced, Changed, DistanceOf;
    RebalancedMeaning(cnt, a, ks);
    TalliedAssigned(cnt, a, ks);
    EveryBalancedChanges(a, b, ks);
  }

  // ---------------------------------------------------------------- no shard is moved twice

  lemma {:induction false} OnlyMovedChange(cnt: map<Gid, seq<nat>>, a: seq<Gid>, ks: seq<Gid>, s: nat)
    requires Tallied(cnt, a) && Enumerates(cnt, ks) && s < |a| && s !in Moves(cnt, a, ks)
    ensures |Rebalanced(cnt, a, ks)| == |a| && Rebalanced(cnt, a, ks)[s] == a[s]
    decreases DistanceOf(a, ks)
  {
    hide Tallied, Enumerates, DistanceOf, Moved;
    var M, m := MaxOf(cnt, ks), MinOf(cnt, ks);
    if !Done(cnt, M, m) {
      MoveReady(cnt, a, M, m, ks);
      OnlyMovedChange(Moved(cnt, M, m), a[cnt[M][0] := m], ks, s);
    }
  }

  lemma {:induction false} ChangedWithin(a: seq<Gid>, r: seq<Gid>, moved: set<nat>)
    requires |a| == |r| && forall s: nat :: s < |a| && s !in moved ==> r[s] == a[s]
    ensures Changed(a, r) <= |moved|
  {
    if a != [] {
      var k := |a| - 1;
      ChangedWithin(a[..k], r[..k], moved - {k});
    }
  }

  lemma {:induction false} RepeatsShrink(q: seq<nat>)
    ensures |Elements(q)| <= |q| && (|Elements(q)| == |q| ==> Distinct(q))
  {
    if q != [] {
      var d, e := q[..|q| - 1], q[|q| - 1];
      RepeatsShrink(d);
      assert q == d + [e];
      assert Elements(q) == Elements(d) + {e};
      if e in d {
        assert Elements(d) + {e} == Elements(d);
      } else {
        assert forall i :: 0 <= i < |d| ==> q[i] == d[i] && d[i] != e;
      }
    }
  }

  /** No shard is moved twice: the moves are exactly the changes. */
  lemma NoShardMovedTwice(cnt: map<Gid, seq<nat>>, a: seq<Gid>, ks: seq<Gid>)
    requires Tallied(cnt, a) && Enumerates(cnt, ks)
    ensures |Rebalanced(cnt, a, ks)| == |a|
    ensures Distinct(Moves(cnt, a, ks)) && |Moves(cnt, a, ks)| == Changed(a, Rebalanced(cnt, a, ks))
  {
    hide Tallied, Enumerates, DistanceOf, Balanced, Changed, Distinct, Moves, Rebalanced;
    RebalancedMeaning(cnt, a, ks);
    var r, q := Rebalanced(cnt, a, ks), Moves(cnt, a, ks);
    forall s: nat | s < |a| && s !in Elements(q) ensures r[s] == a[s] {
      OnlyMovedChange(cnt, a, ks, s);
    }
    ChangedWithin(a, r, Elements(q));
    RepeatsShrink(q);
    assert Assigned(a, ks) by { TalliedAssigned(cnt, a, ks); }
    assert ks != [] by { Nonempty(cnt, ks); }
    EveryBalancedChanges(a, r, ks);
  }

  lemma HeadOnce(x: nat, q: seq<nat>)
    requires Distinct([x] + q)
    ensures x !in q
  {
    var p := [x] + q;
    forall k | 0 <= k < |q| ensures q[k] != x {
      assert p[0] != p[k + 1];
    }
  }

  // A moved shard stays where the move put it.
  lemma MovedStays(cnt: map<Gid, seq<nat>>, a: seq<Gid>, ks: seq<Gid>)
    requires Tallied(cnt, a) && Enumerates(cnt, ks) && !Done(cnt, MaxOf(cnt, ks), MinOf(cnt, ks))
    ensures
      var M, m, r := MaxOf(cnt, ks), MinOf(cnt, ks), Rebalanced(cnt, a, ks);
      cnt[M] != [] && M != m && cnt[M][0] < |r| == |a| && r[cnt[M][0]] == m
  {
    hide Tallied, Enumerates, DistanceOf, Changed;
    var M, m := MaxOf(cnt, ks), MinOf(cnt, ks);
    MoveReady(cnt, a, M, m, ks);
    var s := cnt[M][0];
    var cnt', a' := Moved(cnt, M, m), a[s := m];
    NoShardMovedTwice(cnt, a, ks);
    NoShardMovedTwice(cnt', a', ks);
    var rest := Moves(cnt', a', ks);
    assert Moves(cnt, a, ks) == [s] + rest;
    HeadOnce(s, rest);
    OnlyMovedChange(cnt', a', ks, s);
  }

  // One move, and what it leaves of the lists.
  lemma RebalancedNext(cnt: map<Gid, seq<nat>>, a: seq<Gid>, ks: seq<Gid>)
    requires Tallied(cnt, a) && Enumerates(cnt, ks)
    ensures
      var M, m := MaxOf(cnt, ks), MinOf(cnt, ks);
      if Done(cnt, M, m) then Rebalanced(cnt, a, ks) == a
      else
        && cnt[M] != [] && cnt[M][0] < |a|
        && Tallied(Moved(cnt, M, m), a[cnt[M][0] := m]) && Enumerates(Moved(cnt, M, m), ks)
        && Rebalanced(cnt, a, ks) == Rebalanced(Moved(cnt, M, m), a[cnt[M][0] := m], ks)
        && 0 <= DistanceOf(a[cnt[M][0] := m], ks) < DistanceOf(a, ks)
  {
    hide Tallied, Enumerates, DistanceOf, Moved;
    var M, m := MaxOf(cnt, ks), MinOf(cnt, ks);
    if !Done(cnt, M, m) {
      MoveReady(cnt, a, M, m, ks);
    }
  }

  lemma MovedList(cnt: map<Gid, seq<nat>>, M: Gid, m: Gid, g: Gid)
    requires M in cnt && m in cnt && g in cnt && cnt[M] != [] && M != m
    ensures g in Moved(cnt, M, m)
    ensures if g == M then Moved(cnt, M, m)[g] == cnt[g][1..] else cnt[g] <= Moved(cnt, M, m)[g]
  {
  }

  /** A group gives its shards away from the front of its list. */
  lemma {:induction false} FrontGoesFirst(cnt: map<Gid, seq<nat>>, a: seq<Gid>, ks: seq<Gid>, g: Gid, i: nat, j: nat)
    requires Tallied(cnt, a) && Enumerates(cnt, ks) && g in cnt && i < j < |cnt[g]|
    ensures |Rebalanced(cnt, a, ks)| == |a| && cnt[g][i] < |a| && cnt[g][j] < |a|
    ensures Rebalanced(cnt, a, ks)[cnt[g][j]] != g ==> Rebalanced(cnt, a, ks)[cnt[g][i]] != g
    decreases DistanceOf(a, ks)
  {
    hide Tallied, Enumerates, DistanceOf, Rebalanced, Moved, Done, Balanced, Changed, Moves;
    var M, m := MaxOf(cnt, ks), MinOf(cnt, ks);
    InRangeAndHome(cnt, a, g, i);
    InRangeAndHome(cnt, a, g, j);
    RebalancedMeaning(cnt, a, ks);
    RebalancedNext(cnt, a, ks);
    if !Done(cnt, M, m) {
      MovedStays(cnt, a, ks);
      MovedList(cnt, M, m, g);
      var cnt', a' := Moved(cnt, M, m), a[cnt[M][0] := m];
      if g != M {
        FrontGoesFirst(cnt', a', ks, g, i, j);
      } else if i > 0 {
        FrontGoesFirst(cnt', a', ks, g, i - 1, j - 1);
      }
    }
  }

  lemma InRangeAndHome(cnt: map<Gid, seq<nat>>, a: seq<Gid>, g: Gid, i: nat)
    requires Tallied(cnt, a) && g in cnt && i < |cnt[g]|
    ensures cnt[g][i] < |a| && a[cnt[g][i]] == g
  {
  }

  lemma Nonempty(cnt: map<Gid, seq<nat>>, ks: seq<Gid>)
    requires Enumerates(cnt, ks)
    ensures ks != []
  {
  }
}
