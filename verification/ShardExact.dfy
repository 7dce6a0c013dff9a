/** For which sequences of configurations no write is ever lost: exactly those in which a shard that nobody owns for a
    while goes back to the group that owned it before. */
module ShardExact {
  import opened Requests
  import opened ShardGroup
  import opened ShardProtocol
  import opened ShardInvariant
  import opened ShardSteps
  import opened ShardSafety
  import opened ShardStages
  import opened ShardProgress

  // Whoever serves a shard has exactly the accepted writes, in order.
  ghost predicate Faithful(st: State) {
    forall g, s :: 0 < g < |st.now| && 0 <= s < |st.accepted| && s < |st.now[g].shards| && Serves(st.now[g], g, s) ==>
      st.now[g].shards[s].data == Replay(st.accepted[s])
  }

  // ---------------------------------------------------------------- fewer configurations

  ghost function Upto(p: Setup, m: nat): (q: Setup)
    requires p.WellFormed() && m < |p.configs|
    ensures q.WellFormed() && q.n == p.n && q.groups == p.groups
    ensures forall k: nat, s: nat :: k <= m ==> q.Owner(k, s) == p.Owner(k, s)
    ensures forall k: nat, s: nat :: k > m ==> q.Owner(k, s) == 0
  {
    p.(configs := p.configs[..m + 1])
  }

  lemma UptoGap(p: Setup, m: nat, s: nat, i: nat, j: nat)
    requires p.WellFormed() && j <= m < |p.configs|
    ensures Upto(p, m).Gap(s, i, j) == p.Gap(s, i, j)
  {
    hide Upto;
  }

  lemma {:induction false} FirstViolation(p: Setup, s0: nat, i0: nat, j0: nat) returns (s: nat, i: nat, j: nat)
    requires p.WellFormed() && p.PassedOn(s0, i0, j0) && j0 + 1 < |p.configs|
    ensures p.PassedOn(s, i, j) && j + 1 < |p.configs| && Upto(p, j).KeepsOwner()
    decreases j0
  {
    hide Upto;
    s, i, j := s0, i0, j0;
    var q := Upto(p, j0);
    if !q.KeepsOwner() {
      var s1: nat, i1: nat, j1: nat :| q.PassedOn(s1, i1, j1);
      UptoGap(p, j0, s1, i1, j1);
      s, i, j := FirstViolation(p, s1, i1, j1);
    }
  }

  lemma FewerKeep(p: Setup, m: nat)
    requires p.WellFormed() && m < |p.configs| && p.KeepsOwner()
    ensures Upto(p, m).KeepsOwner()
  {
    hide Upto;
    var q := Upto(p, m);
    forall s: nat, i: nat, j: nat ensures !q.PassedOn(s, i, j) {
      if j <= m {
        UptoGap(p, m, s, i, j);
        assert !p.PassedOn(s, i, j);
      }
    }
  }

  lemma SameStep(p: Setup, m: nat, st: State, e: Event)
    requires p.WellFormed() && m < |p.configs| && Shaped(p, st)
    requires Enabled(Upto(p, m), st, e) && Sized(Upto(p, m), st, e)
    ensures Enabled(p, st, e) && Sized(p, st, e) && Exec(p, st, e) == Exec(Upto(p, m), st, e)
  {
  }

  lemma {:induction false} LeadsMore(p: Setup, m: nat, st: State, es: seq<Event>, st': State)
    requires p.WellFormed() && m < |p.configs| && Leads(Upto(p, m), st, es, st')
    ensures Leads(p, st, es, st')
    decreases |es|
  {
    hide Exec, Enabled, Sized, Upto;
    if es != [] {
      SameStep(p, m, st, es[0]);
      LeadsMore(p, m, Exec(p, st, es[0]), es[1..], st');
    }
  }

  lemma {:induction false} LeadsInv(p: Setup, st: State, es: seq<Event>, st': State)
    requires p.WellFormed() && p.KeepsOwner() && Inv(p, st) && Leads(p, st, es, st')
    ensures Inv(p, st')
    decreases |es|
  {
    hide Inv, Exec;
    if es != [] {
      StepKeeps(p, st, es[0]);
      LeadsInv(p, Exec(p, st, es[0]), es[1..], st');
    }
  }

  // A state that can be reached from the first one can be settled.
  lemma SettlesFrom(p: Setup, es: seq<Event>, st: State) returns (es': seq<Event>, st': State)
    requires p.WellFormed() && p.KeepsOwner() && Leads(p, Init(p), es, st)
    ensures Leads(p, st, es', st') && Settled(p, st') && Leads(p, Init(p), es + es', st') && Inv(p, st')
  {
    hide Inv, Leads, Settled, Init, Stages;
    InitStages(p);
    LeadsStages(p, Init(p), es, st);
    CanSettle(p, st);
    es', st' :| Leads(p, st, es', st') && Settled(p, st');
    LeadsOn(p, Init(p), es, st, es', st');
    InitInv(p);
    LeadsInv(p, Init(p), es + es', st');
  }

  // ---------------------------------------------------------------- one write

  lemma {:induction false} Unused(keys: set<nat>) returns (c: nat)
    ensures forall k :: k in keys ==> k < c
  {
    c := 0;
    if k :| k in keys {
      var d := Unused(keys - {k});
      c := if k < d then d else k + 1;
      assert forall x :: x in keys ==> x == k || x in keys - {k};
    }
  }

  lemma OneWrite(p: Setup, st: State, g: nat, key: string) returns (es: seq<Event>, st': State)
    requires p.WellFormed() && p.KeepsOwner() && Inv(p, st) && 0 < g < p.groups
    requires Serves(st.now[g], g, KeyToShard(key, p.n))
    ensures Leads(p, st, es, st') && Shaped(p, st') && st'.accepted[KeyToShard(key, p.n)] != []
  {
    hide ShardOk, ClientsOk, Leads;
    var c := Unused(st.issued.Keys);
    var w := Request(c, 0, Put, key, "");
    var s := KeyToShard(key, p.n);
    assert Truthful(st.issued, st.done, st.now[g].lastRequest) && c !in st.issued;
    assert c !in st.now[g].lastRequest;
    StepKeeps(p, st, Issue(w));
    var st1 := Exec(p, st, Issue(w));
    StepKeeps(p, st1, Submit(g, w));
    var st2 := Exec(p, st1, Submit(g, w));
    StepKeeps(p, st2, Apply(g, ClientOp(w)));
    st' := Exec(p, st2, Apply(g, ClientOp(w)));
    assert st2.now[g] == st.now[g] && Executes(st.now[g], g, w);
    assert st'.accepted[s] == st.accepted[s] + [w];
    ThreeSteps(p, st, Issue(w), st1, Submit(g, w), st2, Apply(g, ClientOp(w)), st');
    es := [Issue(w), Submit(g, w), Apply(g, ClientOp(w))];
  }

  lemma ThreeSteps(p: Setup, st: State, e: Event, st1: State, f: Event, st2: State, h: Event, st3: State)
    requires p.WellFormed() && Step(p, st, e, st1) && Step(p, st1, f, st2) && Step(p, st2, h, st3)
    ensures Leads(p, st, [e, f, h], st3)
  {
    hide Enabled, Sized, Exec;
    assert [e, f, h][1..] == [f, h] && [f, h][1..] == [h] && [h][1..] == [];
    assert Leads(p, st3, [], st3);
    assert Leads(p, st2, [h], st3);
    assert Leads(p, st1, [f, h], st3);
  }

  lemma {:induction false} LeadsGrows(p: Setup, st: State, es: seq<Event>, st': State, s: nat)
    requires p.WellFormed() && Shaped(p, st) && Leads(p, st, es, st') && s < p.n
    ensures Shaped(p, st') && st.accepted[s] <= st'.accepted[s]
    decreases |es|
  {
    hide Exec, Enabled, Sized;
    if es != [] {
      StepGrows(p, st, es[0], s);
      LeadsGrows(p, Exec(p, st, es[0]), es[1..], st', s);
    }
  }

  // ---------------------------------------------------------------- the lost write

  lemma SettledServes(p: Setup, st: State, g: nat, s: nat)
    requires p.WellFormed() && Inv(p, st) && Settled(p, st) && 0 < g < p.groups && s < p.n
    requires p.Owner(|p.configs| - 1, s) == g
    ensures Serves(st.now[g], g, s)
  {
    hide ShardOk, ClientsOk, TablesOk;
    assert GroupOk(p, g, st.now[g]);
  }

  // With the configurations up to the first owner, a write is accepted; with those up to the end of the gap, all
  // groups get there.
  lemma WrittenBeforeGap(p: Setup, s: nat, i: nat, j: nat, key: string) returns (es: seq<Event>, st: State)
    requires p.WellFormed() && p.PassedOn(s, i, j) && j + 1 < |p.configs| && Upto(p, j).KeepsOwner()
    requires s < p.n && KeyToShard(key, p.n) == s
    ensures Leads(Upto(p, j), Init(p), es, st) && Inv(Upto(p, j), st) && Settled(Upto(p, j), st) && st.accepted[s] != []
  {
    hide Inv, Leads, Settled, Init, Upto;
    var q := Upto(p, j);
    var r := Upto(q, i);
    assert q.Owner(i, s) == p.Owner(i, s) == r.Owner(i, s);
    FewerKeep(q, i);
    SameInit(p, j);
    SameInit(q, i);
    Stay(r, Init(p));
    var es1, st1 := SettlesFrom(r, [], Init(p));
    LastConfig(q, i);
    SettledServes(r, st1, r.Owner(i, s), s);
    var es2, st2 := OneWrite(r, st1, r.Owner(i, s), key);
    LeadsOn(r, Init(p), [] + es1, st1, es2, st2);
    LeadsMore(q, i, Init(p), [] + es1 + es2, st2);
    var es3, st3 := SettlesFrom(q, [] + es1 + es2, st2);
    LeadsGrows(q, st2, es3, st3, s);
    es, st := [] + es1 + es2 + es3, st3;
  }

  lemma SameInit(p: Setup, m: nat)
    requires p.WellFormed() && m < |p.configs|
    ensures Init(Upto(p, m)) == Init(p)
  {
    var q := Upto(p, m);
    assert q.configs[0] == p.configs[0];
    assert Fresh(q) == Fresh(p);
  }

  lemma LastConfig(p: Setup, m: nat)
    requires p.WellFormed() && m < |p.configs|
    ensures |Upto(p, m).configs| == m + 1
  {
  }

  // The group that gets the shard after the gap has nothing of what was written before it.
  lemma EmptyHanded(p: Setup, st: State, s: nat, i: nat, b: nat)
    requires p.WellFormed() && Inv(p, st) && Settled(p, st) && s < p.n && 0 < b < p.groups && st.accepted[s] != []
    requires p.Gap(s, i, |p.configs| - 1) && p.Owner(i, s) != 0 && p.Owner(i, s) != b
    ensures s < |st.now[b].shards| && st.now[b].shards[s] == Shard(map[], Serving) && Replay(st.accepted[s]) != map[]
  {
    hide CommandOk, PastOk, ReachedOk, ClientsOk, TablesOk, Replay, Covers;
    var t := st.token[s];
    assert GroupOk(p, b, st.now[b]) && ShardOk(p, st, s) && NowOk(p, b, st.now[b], s, t);
    assert PassedOk(p, st.now, i, s, t);
    assert t == i;
    var ws := st.accepted[s];
    assert IsWriteOn(p, ws[|ws| - 1], s);
    LastWriteStays(ws);
  }

  lemma LastWriteStays(ws: seq<Request>)
    requires ws != [] && !ws[|ws| - 1].kind.Get?
    ensures Replay(ws) != map[]
  {
    assert ws[|ws| - 1].key in Replay(ws);
  }

  lemma TakesEmpty(p: Setup, st: State, s: nat, j: nat, b: nat) returns (st': State)
    requires p.WellFormed() && j + 1 < |p.configs| && Shaped(p, st) && s < p.n && 0 < b < p.groups
    requires GroupOk(p, b, st.now[b]) && st.now[b] in st.past[b] && AllServing(st.now[b]) && st.now[b].current.num == j
    requires p.Owner(j, s) == 0 && p.Owner(j + 1, s) == b
    requires st.now[b].shards[s].data == map[] && Replay(st.accepted[s]) != map[]
    ensures Leads(p, st, [ProposeConfig(b, st.now[b]), Apply(b, AddConfig(p.configs[j + 1]))], st') && !Faithful(st')
  {
    hide Replay;
    var x := st.now[b];
    var e, f := ProposeConfig(b, x), Apply(b, AddConfig(p.configs[j + 1]));
    var st1 := Exec(p, st, e);
    assert st1.now == st.now;
    st' := Exec(p, st1, f);
    assert Serves(st'.now[b], b, s) && st'.now[b].shards[s].data == map[];
    assert st'.accepted == st.accepted;
    hide Exec, Enabled, Faithful;
    assert [e, f][1..] == [f] && [f][1..] == [];
    assert Leads(p, st', [], st');
    assert Leads(p, st1, [f], st');
  }

  lemma Loses(p: Setup, s: nat, i: nat, j: nat, key: string) returns (es: seq<Event>, st: State)
    requires p.WellFormed() && p.PassedOn(s, i, j) && j + 1 < |p.configs| && Upto(p, j).KeepsOwner()
    requires s < p.n && KeyToShard(key, p.n) == s
    ensures Leads(p, Init(p), es, st) && !Faithful(st)
  {
    hide Leads, Settled, Init, Upto, ShardOk, ClientsOk, TablesOk, Faithful, Replay;
    var q, b := Upto(p, j), p.Owner(j + 1, s);
    var es1, st1 := WrittenBeforeGap(p, s, i, j, key);
    UptoGap(p, j, s, i, j);
    LastConfig(p, j);
    EmptyHanded(q, st1, s, i, b);
    assert GroupOk(q, b, st1.now[b]);
    SettledGroup(p, j, st1, b);
    LeadsMore(p, j, Init(p), es1, st1);
    st := TakesEmpty(p, st1, s, j, b);
    es := es1 + [ProposeConfig(b, st1.now[b]), Apply(b, AddConfig(p.configs[j + 1]))];
    LeadsOn(p, Init(p), es1, st1, [ProposeConfig(b, st1.now[b]), Apply(b, AddConfig(p.configs[j + 1]))], st);
  }

  lemma SettledGroup(p: Setup, m: nat, st: State, g: nat)
    requires p.WellFormed() && m < |p.configs| && 0 < g < |st.now| && Settled(Upto(p, m), st)
    requires GroupOk(Upto(p, m), g, st.now[g])
    ensures GroupOk(p, g, st.now[g]) && st.now[g].current.num == m && AllServing(st.now[g])
  {
  }

  // ---------------------------------------------------------------- exactly when

  ghost function Trace(p: Setup, st: State, es: seq<Event>, st': State): (trace: seq<State>)
    requires p.WellFormed()
    requires Leads(p, st, es, st')
    ensures |trace| == |es| + 1 && trace[0] == st
    decreases |es|
  {
    if es == [] then [st] else [st] + Trace(p, Exec(p, st, es[0]), es[1..], st')
  }

  lemma {:induction false} LeadsRun(p: Setup, st: State, es: seq<Event>, st': State)
    requires p.WellFormed() && Leads(p, st, es, st')
    ensures Trace(p, st, es, st')[|es|] == st'
    ensures forall i :: 0 <= i < |es| ==> Step(p, Trace(p, st, es, st')[i], es[i], Trace(p, st, es, st')[i + 1])
    decreases |es|
  {
    hide Exec, Enabled, Sized;
    if es != [] {
      var st1 := Exec(p, st, es[0]);
      LeadsRun(p, st1, es[1..], st');
      var trace, rest := Trace(p, st, es, st'), Trace(p, st1, es[1..], st');
      assert trace == [st] + rest;
      forall i | 0 <= i < |es| ensures Step(p, trace[i], es[i], trace[i + 1]) {
        if i > 0 {
          assert Step(p, rest[i - 1], es[1..][i - 1], rest[i - 1 + 1]);
        }
      }
    }
  }

  // Some key is kept in the shard.
  ghost predicate Reachable(p: Setup, s: nat)
    requires p.WellFormed()
  {
    exists key :: KeyToShard(key, p.n) == s
  }

  /** No run loses a write if and only if every shard that nobody owns for a while goes back to its last owner. */
  lemma ExactlyWhen(p: Setup)
    requires p.WellFormed() && forall s :: 0 <= s < p.n ==> Reachable(p, s)
    ensures p.KeepsOwner() <==>
      forall trace, events :: Run(p, trace, events) ==> Faithful(trace[|events|])
  {
    hide Step, Faithful, Init;
    if p.KeepsOwner() {
      forall trace, events | Run(p, trace, events) ensures Faithful(trace[|events|]) {
        AlwaysFaithful(p, trace, events);
      }
    } else {
      LosingRun(p);
    }
  }

  lemma AlwaysFaithful(p: Setup, trace: seq<State>, events: seq<Event>)
    requires p.WellFormed() && p.KeepsOwner() && Run(p, trace, events)
    ensures Faithful(trace[|events|])
  {
    hide Replay, Covers;
    var st := trace[|events|];
    forall g, s | 0 < g < |st.now| && 0 <= s < |st.accepted| && s < |st.now[g].shards| && Serves(st.now[g], g, s)
      ensures st.now[g].shards[s].data == Replay(st.accepted[s])
    {
      RunInv(p, trace, events, |events|);
      NoWriteLost(p, trace, events, |events|, s);
      assert HasAll(st, g, s);
    }
  }

  lemma LosingRun(p: Setup)
    requires p.WellFormed() && !p.KeepsOwner() && forall s :: 0 <= s < p.n ==> Reachable(p, s)
    ensures exists trace, events :: Run(p, trace, events) && !Faithful(trace[|events|])
  {
    hide Faithful, Init, Step;
    var s0: nat, i0: nat, j0: nat :| p.PassedOn(s0, i0, j0);
    var s, i, j := FirstViolation(p, s0, i0, j0);
    assert Reachable(p, s);
    var key :| KeyToShard(key, p.n) == s;
    var es, st := Loses(p, s, i, j, key);
    LeadsRun(p, Init(p), es, st);
    assert Run(p, Trace(p, Init(p), es, st), es);
  }

  // In particular, the premise that an owned shard is never dropped is enough.
  lemma NeverDroppedKeeps(p: Setup)
    requires p.WellFormed() && p.NeverDropped()
    ensures p.KeepsOwner()
  {
    forall s: nat, i: nat, j: nat ensures !p.PassedOn(s, i, j) {
      if p.Owner(i, s) != 0 && i + 1 < |p.configs| {
        assert p.Owner(i + 1, s) != 0;
      }
    }
  }
}
