/** How far other groups must have got when a group is at some configuration: two groups that exchange a shard in a
    configuration both wait for the other one to get there before they go on. */
module ShardForced {
  import opened ShardGroup
  import opened ShardProtocol
  import opened ShardInvariant
  import opened ShardStages

  // Configuration `c` moves a shard from group `g` to group `h`.
  ghost predicate Gives(p: Setup, g: nat, h: nat, c: nat)
    requires p.WellFormed()
  {
    exists s: nat :: s < p.n && Moved(p, c, s) && p.Owner(c - 1, s) == g && p.Owner(c, s) == h
  }

  ghost predicate Linked(p: Setup, g: nat, h: nat, c: nat)
    requires p.WellFormed()
  {
    Gives(p, g, h, c) || Gives(p, h, g, c)
  }

  // When group `g` has got to `c`, group `h` has got to `k`.
  ghost predicate Forces(p: Setup, g: nat, c: nat, h: nat, k: nat)
    requires p.WellFormed()
    decreases c
  {
    (g == h && k <= c) || exists c': nat, g': nat :: c' < c && Linked(p, g, g', c') && Forces(p, g', c', h, k)
  }

  // When group `g` serves the shard in configuration `c`, group `h` has got to `k`.
  ghost predicate ServingForces(p: Setup, g: nat, c: nat, s: nat, h: nat, k: nat)
    requires p.WellFormed()
  {
    Forces(p, g, c, h, k) || (Moved(p, c, s) && Forces(p, p.Owner(c - 1, s), c, h, k))
  }

  // ---------------------------------------------------------------- what is forced holds

  lemma GivenIn(p: Setup, g: nat, h: nat, c: nat)
    requires p.WellFormed() && Gives(p, g, h, c)
    ensures 0 < c < |p.configs| && 0 < g < p.groups && 0 < h < p.groups && g != h
  {
  }

  lemma PartnerThere(p: Setup, st: State, g: nat, h: nat, c: nat)
    requires p.WellFormed() && Stages(p, st) && 0 < g < p.groups && c < st.now[g].current.num && Linked(p, g, h, c)
    ensures 0 < h < p.groups && c <= st.now[h].current.num
  {
    hide CommandStage, GoesOn;
    if Gives(p, g, h, c) {
      var s: nat :| s < p.n && Moved(p, c, s) && p.Owner(c - 1, s) == g && p.Owner(c, s) == h;
      assert StageOk(p, st, s) && LinkOk(p, st.now, c, s);
      assert GroupOk(p, g, st.now[g]);
    } else {
      var s: nat :| s < p.n && Moved(p, c, s) && p.Owner(c - 1, s) == h && p.Owner(c, s) == g;
      assert StageOk(p, st, s) && LinkOk(p, st.now, c, s);
    }
  }

  lemma {:induction false} ForcedThere(p: Setup, st: State, g: nat, c: nat, h: nat, k: nat)
    requires p.WellFormed() && Stages(p, st) && 0 < g < p.groups && c <= st.now[g].current.num && Forces(p, g, c, h, k)
    ensures 0 < h < p.groups && k <= st.now[h].current.num
    decreases c
  {
    hide Stages, Linked;
    if !(g == h && k <= c) {
      var c': nat, g': nat :| c' < c && Linked(p, g, g', c') && Forces(p, g', c', h, k);
      PartnerThere(p, st, g, g', c');
      ForcedThere(p, st, g', c', h, k);
    }
  }

  lemma ServingThere(p: Setup, st: State, g: nat, s: nat, h: nat, k: nat)
    requires p.WellFormed() && Stages(p, st) && 0 < g < p.groups && s < p.n && Serves(st.now[g], g, s)
    requires ServingForces(p, g, st.now[g].current.num, s, h, k)
    ensures 0 < h < p.groups && k <= st.now[h].current.num
  {
    hide CommandStage, GoesOn, Forces;
    var c := st.now[g].current.num;
    if Forces(p, g, c, h, k) {
      ForcedThere(p, st, g, c, h, k);
    } else {
      assert StageOk(p, st, s) && LinkOk(p, st.now, c, s);
      assert GroupOk(p, g, st.now[g]);
      ForcedThere(p, st, p.Owner(c - 1, s), c, h, k);
    }
  }

  /** Whenever a shard belongs to different groups in two configurations, the later one cannot serve it before the
      earlier one has left its configuration. */
  ghost predicate Separated(p: Setup)
    requires p.WellFormed()
  {
    forall s: nat, m: nat, m': nat :: Changes(p, s, m, m') ==> ServingForces(p, p.Owner(m', s), m', s, p.Owner(m, s), m + 1)
  }

  // The shard belongs to one group in `m` and to another one in the later configuration `m'`.
  ghost predicate Changes(p: Setup, s: nat, m: nat, m': nat)
    requires p.WellFormed()
  {
    s < p.n && m < m' && p.Owner(m, s) != 0 && p.Owner(m', s) != 0 && p.Owner(m, s) != p.Owner(m', s)
  }

  // No two groups accept client operations on the same shard.
  ghost predicate OneServer(st: State) {
    forall g: nat, h: nat, s: nat :: 0 < g < |st.now| && 0 < h < |st.now| && Serves(st.now[g], g, s) && Serves(st.now[h], h, s) ==> g == h
  }

  lemma SeparatedOneServer(p: Setup, st: State)
    requires p.WellFormed() && Separated(p) && Stages(p, st)
    ensures OneServer(st)
  {
    hide StageOk, ServingForces;
    forall g: nat, h: nat, s: nat | 0 < g < |st.now| && 0 < h < |st.now| && Serves(st.now[g], g, s) && Serves(st.now[h], h, s)
      ensures g == h
    {
      var m, m' := st.now[g].current.num, st.now[h].current.num;
      assert GroupOk(p, g, st.now[g]) && GroupOk(p, h, st.now[h]);
      if g != h && m < m' {
        assert Changes(p, s, m, m');
        ServingThere(p, st, h, s, g, m + 1);
      } else if g != h && m' < m {
        assert Changes(p, s, m', m);
        ServingThere(p, st, g, s, h, m' + 1);
      }
    }
  }

  // ---------------------------------------------------------------- chains

  lemma {:induction false} ForcesLess(p: Setup, g: nat, c: nat, h: nat, k: nat, k': nat)
    requires p.WellFormed() && Forces(p, g, c, h, k) && k' <= k
    ensures Forces(p, g, c, h, k') && k <= c
    decreases c
  {
    if !(g == h && k <= c) {
      var c': nat, g': nat :| c' < c && Linked(p, g, g', c') && Forces(p, g', c', h, k);
      ForcesLess(p, g', c', h, k, k');
    }
  }

  // Whoever must have got beyond `c` has waited for its partner there.
  lemma {:induction false} ForcesOn(p: Setup, g: nat, d: nat, h: nat, k: nat, h': nat, c: nat)
    requires p.WellFormed() && Forces(p, g, d, h, k) && c < k && Linked(p, h, h', c)
    ensures Forces(p, g, d, h', c)
    decreases d
  {
    if g == h && k <= d {
      assert Forces(p, h', c, h', c);
    } else {
      var c': nat, g': nat :| c' < d && Linked(p, g, g', c') && Forces(p, g', c', h, k);
      ForcesOn(p, g', c', h, k, h', c);
    }
  }
}
