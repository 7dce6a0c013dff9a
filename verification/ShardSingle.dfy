/** For which sequences of configurations no two groups ever serve the same shard: exactly those in which the later owner
    of a shard always has to wait for the earlier one. */
module ShardSingle {
  import opened ShardGroup
  import opened ShardProtocol
  import opened ShardInvariant
  import opened ShardStages
  import opened ShardProgress
  import opened ShardForced
  import opened ShardSchedule
  import Exact = ShardExact
  import Safety = ShardSafety

  // ---------------------------------------------------------------- how far the others must get

  // Group `h` must get to `k` for the owners of the shard in `m` and in `m'` to serve it there.
  ghost predicate Wanted(p: Setup, s: nat, m: nat, m': nat, h: nat, k: nat)
    requires p.WellFormed()
  {
    k == 0 || ServingForces(p, p.Owner(m, s), m, s, h, k) || ServingForces(p, p.Owner(m', s), m', s, h, k)
  }

  ghost function Cap(p: Setup, s: nat, m: nat, m': nat, h: nat, bound: nat): (k: nat)
    requires p.WellFormed()
    ensures k <= bound && Wanted(p, s, m, m', h, k)
    ensures forall j: nat :: k < j <= bound ==> !Wanted(p, s, m, m', h, j)
  {
    if Wanted(p, s, m, m', h, bound) then bound else Cap(p, s, m, m', h, bound - 1)
  }

  ghost function PlanFor(p: Setup, s: nat, m: nat, m': nat): Plan
    requires p.WellFormed()
  {
    Plan(seq(p.groups, h requires 0 <= h < p.groups => Cap(p, s, m, m', h, m')), m' + 1, 0, (g, c) => true)
  }

  lemma ServingForcesLess(p: Setup, g: nat, c: nat, s: nat, h: nat, k: nat, k': nat)
    requires p.WellFormed() && ServingForces(p, g, c, s, h, k) && k' <= k
    ensures ServingForces(p, g, c, s, h, k') && k <= c
  {
    if Forces(p, g, c, h, k) {
      ForcesLess(p, g, c, h, k, k');
    } else {
      ForcesLess(p, p.Owner(c - 1, s), c, h, k, k');
    }
  }

  lemma ServingForcesOn(p: Setup, g: nat, d: nat, s: nat, h: nat, k: nat, h': nat, c: nat)
    requires p.WellFormed() && ServingForces(p, g, d, s, h, k) && c < k && Linked(p, h, h', c)
    ensures ServingForces(p, g, d, s, h', c)
  {
    if Forces(p, g, d, h, k) {
      ForcesOn(p, g, d, h, k, h', c);
    } else {
      ForcesOn(p, p.Owner(d - 1, s), d, h, k, h', c);
    }
  }

  // Whatever is wanted up to `m'` is within the cap.
  lemma CapReaches(p: Setup, s: nat, m: nat, m': nat, h: nat, k: nat)
    requires p.WellFormed() && m < m' && Wanted(p, s, m, m', h, k)
    ensures k <= Cap(p, s, m, m', h, m')
  {
    if k > 0 {
      if ServingForces(p, p.Owner(m, s), m, s, h, k) {
        ServingForcesLess(p, p.Owner(m, s), m, s, h, k, k);
      } else {
        ServingForcesLess(p, p.Owner(m', s), m', s, h, k, k);
      }
    }
  }

  lemma PlanCaps(p: Setup, s: nat, m: nat, m': nat)
    requires p.WellFormed() && m < m' < |p.configs|
    ensures CapsOk(p, PlanFor(p, s, m, m')) && Spreads(p, PlanFor(p, s, m, m'))
  {
    hide ServingForces, Linked;
    var t := PlanFor(p, s, m, m');
    forall g: nat, h: nat, c: nat | 0 < g < p.groups && 0 < h < p.groups && c < t.caps[g] && Linked(p, g, h, c)
      ensures c <= t.caps[h]
    {
      var k := t.caps[g];
      if ServingForces(p, p.Owner(m, s), m, s, g, k) {
        ServingForcesOn(p, p.Owner(m, s), m, s, g, k, h, c);
      } else {
        ServingForcesOn(p, p.Owner(m', s), m', s, g, k, h, c);
      }
      CapReaches(p, s, m, m', h, c);
    }
  }

  // The earlier owner is not made to leave its configuration.
  lemma OwnersStop(p: Setup, s: nat, m: nat, m': nat)
    requires p.WellFormed() && Changes(p, s, m, m') && m' < |p.configs|
    requires !ServingForces(p, p.Owner(m', s), m', s, p.Owner(m, s), m + 1)
    ensures
      var t := PlanFor(p, s, m, m');
      && t.caps[p.Owner(m, s)] == m && t.caps[p.Owner(m', s)] == m'
      && (Moved(p, m, s) ==> t.caps[p.Owner(m - 1, s)] >= m) && (Moved(p, m', s) ==> t.caps[p.Owner(m' - 1, s)] >= m')
  {
    hide Linked;
    var a, b := p.Owner(m, s), p.Owner(m', s);
    assert Forces(p, a, m, a, m) && Forces(p, b, m', b, m');
    assert Moved(p, m, s) ==> Forces(p, p.Owner(m - 1, s), m, p.Owner(m - 1, s), m);
    assert Moved(p, m', s) ==> Forces(p, p.Owner(m' - 1, s), m', p.Owner(m' - 1, s), m');
    hide Forces;
    CapReaches(p, s, m, m', a, m);
    CapReaches(p, s, m, m', b, m');
    if Moved(p, m, s) {
      CapReaches(p, s, m, m', p.Owner(m - 1, s), m);
    }
    if Moved(p, m', s) {
      CapReaches(p, s, m, m', p.Owner(m' - 1, s), m');
    }
    var k := Cap(p, s, m, m', a, m');
    if k > m {
      if ServingForces(p, a, m, s, a, k) {
        ServingForcesLess(p, a, m, s, a, k, k);
      } else {
        ServingForcesLess(p, b, m', s, a, k, m + 1);
      }
    }
  }

  // ---------------------------------------------------------------- a run with two servers

  lemma InitGuided(p: Setup, t: Plan)
    requires p.WellFormed() && CapsOk(p, t) && Spreads(p, t)
    ensures Guided(p, t, Init(p))
  {
    hide StageOk, GroupsOk, Spreads;
    InitStages(p);
    var st := Init(p);
    forall g | 0 < g < p.groups ensures Careful(t, g, st.now[g], st.past[g], st.pending[g]) {
      assert Clean(t, st.now[g], st.now[g]);
    }
  }

  lemma TwoServersRun(p: Setup, s: nat, m: nat, m': nat) returns (es: seq<Event>, st: State)
    requires p.WellFormed() && Changes(p, s, m, m') && m' < |p.configs|
    requires !ServingForces(p, p.Owner(m', s), m', s, p.Owner(m, s), m + 1)
    ensures Leads(p, Init(p), es, st) && !OneServer(st)
  {
    hide StageOk, Leads, Careful, Spreads, CapsOk, ServingForces, Init, PlanFor;
    var t, a, b := PlanFor(p, s, m, m'), p.Owner(m, s), p.Owner(m', s);
    PlanCaps(p, s, m, m');
    OwnersStop(p, s, m, m');
    PlanLevel(p, s, m, m');
    InitGuided(p, t);
    var es1, st1 := FollowPlan(p, t, Init(p));
    var es2, st2 := StartServing(p, t, st1, a, s);
    var es3, st3 := StartServing(p, t, st2, b, s);
    es, st := es1 + es2 + es3, st3;
    LeadsOn(p, Init(p), es1, st1, es2, st2);
    LeadsOn(p, Init(p), es1 + es2, st2, es3, st3);
    assert Serves(st.now[a], a, s) && Serves(st.now[b], b, s);
  }

  lemma PlanLevel(p: Setup, s: nat, m: nat, m': nat)
    requires p.WellFormed()
    ensures PlanFor(p, s, m, m').level == m' + 1
  {
  }

  /** No run has two groups that serve the same shard if and only if the later owner of a shard always has to wait for the
      earlier one to leave its configuration. */
  lemma SingleExactly(p: Setup)
    requires p.WellFormed()
    ensures Separated(p) <==> forall trace, events :: Run(p, trace, events) ==> OneServer(trace[|events|])
  {
    hide Step, OneServer, Init, Stages;
    if Separated(p) {
      forall trace: seq<State>, events: seq<Event> | Run(p, trace, events) ensures OneServer(trace[|events|]) {
        RunStages(p, trace, events, |events|);
        SeparatedOneServer(p, trace[|events|]);
      }
    } else {
      var s: nat, m: nat, m': nat :| Changes(p, s, m, m') && !ServingForces(p, p.Owner(m', s), m', s, p.Owner(m, s), m + 1);
      var es, st := TwoServersRun(p, s, m, m');
      Exact.LeadsRun(p, Init(p), es, st);
      assert Run(p, Exact.Trace(p, Init(p), es, st), es);
    }
  }
  // In particular when a shard that nobody owns for a while goes back to its last owner.
  lemma KeepsSeparated(p: Setup)
    requires p.WellFormed() && p.KeepsOwner()
    ensures Separated(p)
  {
    hide Step, Init, Separated;
    forall trace: seq<State>, events: seq<Event> | Run(p, trace, events) ensures OneServer(trace[|events|]) {
      var st := trace[|events|];
      RunStages(p, trace, events, |events|);
      forall g: nat, h: nat, s: nat | 0 < g < |st.now| && 0 < h < |st.now| && Serves(st.now[g], g, s) && Serves(st.now[h], h, s)
        ensures g == h
      {
        assert s < p.n by { assert GroupOk(p, g, st.now[g]); }
        Safety.SingleServer(p, trace, events, |events|, s, g, h);
      }
    }
    SingleExactly(p);
  }
}
