/** Runs to a plan: every group gets exactly as far as the plan says, and a client's entry spreads from table to table
    only where the plan cannot avoid it. */
module ShardSchedule {
  import opened Basics
  import opened Requests
  import opened ShardGroup
  import opened ShardProtocol
  import opened ShardInvariant
  import opened ShardStages
  import opened ShardProgress
  import opened ShardForced

  /** Group `g` stops at configuration `caps[g]`, and shards are pulled in configurations before `level` only.  Whoever
      `knows` may have the client's entry when it enters a configuration. */
  datatype Plan = Plan(caps: seq<nat>, level: nat, client: nat, knows: (nat, nat) -> bool)

  ghost predicate CapsOk(p: Setup, t: Plan)
    requires p.WellFormed()
  {
    && |t.caps| == p.groups
    && (forall g :: 0 <= g < p.groups ==> t.caps[g] <= t.level && t.caps[g] < |p.configs|)
    && (forall g: nat, h: nat, c: nat :: 0 < g < p.groups && 0 < h < p.groups && c < t.caps[g] && Linked(p, g, h, c) ==> c <= t.caps[h])
  }

  ghost predicate Spreads(p: Setup, t: Plan)
    requires p.WellFormed()
  {
    && (forall g: nat, c: nat, d: nat :: t.knows(g, c) && c <= d ==> t.knows(g, d))
    && (forall g: nat, h: nat, c: nat :: Gives(p, g, h, c) && t.knows(g, c) ==> t.knows(h, c + 1))
  }

  // A state from which the group's shards can be pulled without the client's entry.
  ghost predicate Clean(t: Plan, x: Group, y: Group) {
    && y.current.num == x.current.num && t.client !in y.lastRequest && |y.shards| == |x.shards|
    && forall s :: 0 <= s < |x.shards| && x.shards[s].state == BePulling ==> y.shards[s].state == BePulling
  }

  ghost predicate Careful(t: Plan, g: nat, x: Group, past: set<Group>, pending: set<Command>) {
    && (t.client in x.lastRequest ==> t.knows(g, Min(x.current.num + 1, t.level)))
    && (t.knows(g, x.current.num) || exists y :: y in past && Clean(t, x, y))
    && forall cmd :: cmd in pending && cmd.InsertShard? && t.client in cmd.lastRequest ==>
         t.knows(g, Min(cmd.num + 1, t.level))
  }

  ghost predicate CarefulAll(p: Setup, t: Plan, st: State)
    requires Shaped(p, st)
  {
    forall g :: 0 < g < p.groups ==> Careful(t, g, st.now[g], st.past[g], st.pending[g])
  }

  ghost predicate WithinCaps(p: Setup, t: Plan, st: State)
    requires Shaped(p, st) && |t.caps| == p.groups
  {
    forall g :: 0 < g < p.groups ==> st.now[g].current.num <= t.caps[g]
  }

  ghost predicate Guided(p: Setup, t: Plan, st: State)
    requires p.WellFormed()
  {
    CapsOk(p, t) && Spreads(p, t) && Stages(p, st) && WithinCaps(p, t, st) && CarefulAll(p, t, st)
  }

  // Nothing happens to clients.
  ghost predicate SameClients(st: State, st': State) {
    st'.issued == st.issued && st'.accepted == st.accepted
  }

  // ---------------------------------------------------------------- steps

  lemma OneStep(p: Setup, st: State, e: Event) returns (st': State)
    requires p.WellFormed() && Stages(p, st) && Enabled(p, st, e)
    ensures Step(p, st, e, st') && Stages(p, st') && Measure(p, st') <= Measure(p, st) && |st'.now| == |st.now|
    ensures forall g :: 0 < g < |st.now| && !SameProgress(st.now[g], st'.now[g]) ==> Measure(p, st') < Measure(p, st)
    ensures Leads(p, st, [e], st')
  {
    hide Measure, SameProgress, StageOk, GroupsOk, Enabled;
    StepStages(p, st, e);
    NeverRises(p, st, e);
    st' := Exec(p, st, e);
    assert [e][1..] == [];
    hide Exec;
    assert Leads(p, st', [], st');
  }

  // A group that stays careful while the others stand still.
  lemma OthersCareful(p: Setup, t: Plan, st: State, st': State, g: nat)
    requires Shaped(p, st) && Shaped(p, st') && CarefulAll(p, t, st) && 0 < g < p.groups
    requires forall h :: 0 < h < p.groups && h != g ==>
      st'.now[h] == st.now[h] && st'.past[h] == st.past[h] && forall cmd :: cmd in st'.pending[h] && cmd.InsertShard? ==> cmd in st.pending[h]
    requires Careful(t, g, st'.now[g], st'.past[g], st'.pending[g])
    ensures CarefulAll(p, t, st')
  {
  }

  // ---------------------------------------------------------------- the next configuration

  lemma EntersCareful(p: Setup, t: Plan, g: nat, x: Group, past: set<Group>, pending: set<Command>, c: Config)
    requires p.WellFormed() && GroupOk(p, g, x) && AllServing(x) && |c.shards| == p.n && c.num == x.current.num + 1 <= t.level
    requires Spreads(p, t) && Careful(t, g, x, past, pending)
    ensures Careful(t, g, ProcessAddConfig(x, g, c), past + {ProcessAddConfig(x, g, c)}, pending + {AddConfig(c)})
  {
    var x' := ProcessAddConfig(x, g, c);
    if t.client !in x.lastRequest {
      assert Clean(t, x', x');
    } else {
      assert t.knows(g, x.current.num + 1);
    }
  }

  lemma ConfigRound(p: Setup, t: Plan, st: State, g: nat) returns (es: seq<Event>, st': State)
    requires p.WellFormed() && Guided(p, t, st) && 0 < g < p.groups
    requires AllServing(st.now[g]) && st.now[g].current.num < t.caps[g]
    ensures Leads(p, st, es, st') && Guided(p, t, st') && Measure(p, st') < Measure(p, st) && SameClients(st, st')
  {
    hide StageOk, Measure, Careful, Spreads, Leads;
    var x := st.now[g];
    assert GroupOk(p, g, x);
    var c := p.configs[x.current.num + 1];
    var st1 := OneStep(p, st, ProposeConfig(g, x));
    st' := OneStep(p, st1, Apply(g, AddConfig(c)));
    EntersCareful(p, t, g, x, st.past[g], st.pending[g], c);
    OthersCareful(p, t, st, st', g);
    assert !SameProgress(st1.now[g], st'.now[g]);
    es := [ProposeConfig(g, x)] + [Apply(g, AddConfig(c))];
    LeadsOn(p, st, [ProposeConfig(g, x)], st1, [Apply(g, AddConfig(c))], st');
  }
  // ---------------------------------------------------------------- a pull

  // The command that carries what group `g` pulls from state `y` of group `from`.
  ghost function Pulled(x: Group, from: nat, y: Group): Command {
    InsertShard(x.current.num, Copies(y, WithState(x, Pulling, from)), y.lastRequest)
  }

  ghost function After(x: Group, from: nat, y: Group): Group {
    ProcessInsertShard(x, x.current.num, Copies(y, WithState(x, Pulling, from)), y.lastRequest)
  }

  // Group `g` waits for shard `s`, and state `y` of the group that gives it away has it ready.
  ghost predicate CanPull(p: Setup, st: State, g: nat, s: nat, from: nat, y: Group)
    requires p.WellFormed()
  {
    && Shaped(p, st) && 0 < g < p.groups && s < p.n && s < |st.now[g].shards| && st.now[g].shards[s].state == Pulling
    && 0 < from < p.groups && st.now[g].current.num > 0 && p.Owner(st.now[g].current.num - 1, s) == from
    && y in st.past[from] && y.current.num == st.now[g].current.num && s < |y.shards| && y.shards[s].state == BePulling
  }

  lemma PullFrom(p: Setup, st: State, g: nat, s: nat, from: nat, y: Group) returns (es: seq<Event>, st': State)
    requires p.WellFormed() && Stages(p, st) && CanPull(p, st, g, s, from, y)
    ensures Leads(p, st, es, st') && Stages(p, st') && Measure(p, st') < Measure(p, st) && SameClients(st, st')
    ensures
      var x, x' := st.now[g], After(st.now[g], from, y);
      && st'.now == st.now[g := x'] && st'.past == st.past[g := st.past[g] + {x'}]
      && st'.pending == st.pending[g := st.pending[g] + {Pulled(x, from, y)}]
      && s < |x'.shards| && x'.shards[s].state == GCing
  {
    hide StageOk, Measure, Leads, MergeLast;
    var x := st.now[g];
    assert GroupOk(p, g, x) && s in WithState(x, Pulling, from);
    var e := Pull(g, x, from, y);
    var st1 := OneStep(p, st, e);
    var f := Apply(g, Pulled(x, from, y));
    assert s in Copies(y, WithState(x, Pulling, from));
    hide Copies, WithState;
    st' := OneStep(p, st1, f);
    assert !SameProgress(st1.now[g], st'.now[g]) by { assert st'.now[g].shards[s].state == GCing; }
    es := [e] + [f];
    LeadsOn(p, st, [e], st1, [f], st');
  }

  lemma PullCareful(t: Plan, g: nat, x: Group, past: set<Group>, pending: set<Command>, from: nat, y: Group)
    requires Careful(t, g, x, past, pending) && (t.client in y.lastRequest ==> t.knows(g, Min(x.current.num + 1, t.level)))
    ensures Careful(t, g, After(x, from, y), past + {After(x, from, y)}, pending + {Pulled(x, from, y)})
  {
    hide Copies, WithState;
    var x' := After(x, from, y);
    if !t.knows(g, x.current.num) {
      var z :| z in past && Clean(t, x, z);
      assert Clean(t, x', z);
    }
  }

  // A state of the giver that does not pass the client's entry on where the plan can avoid it.
  lemma CleanState(p: Setup, t: Plan, st: State, g: nat, s: nat) returns (y: Group)
    requires p.WellFormed() && Stages(p, st) && CarefulAll(p, t, st) && 0 < g < p.groups && s < p.n && st.now[g].current.num > 0
    requires s < |st.now[g].shards| && st.now[g].shards[s].state == Pulling && GiverThere(p, st.now, st.now[g].current.num, s)
    ensures
      var c := st.now[g].current.num;
      CanPull(p, st, g, s, p.Owner(c - 1, s), y) && (t.client in y.lastRequest ==> t.knows(p.Owner(c - 1, s), c))
  {
    hide StageOk;
    var c := st.now[g].current.num;
    DataReady(p, st, g, s);
    var from := p.Owner(c - 1, s);
    assert Careful(t, from, st.now[from], st.past[from], st.pending[from]);
    assert GroupOk(p, from, st.now[from]);
    if t.knows(from, c) {
      y := st.now[from];
    } else {
      y :| y in st.past[from] && Clean(t, st.now[from], y);
    }
  }

  lemma PullRound(p: Setup, t: Plan, st: State, g: nat, s: nat) returns (es: seq<Event>, st': State)
    requires p.WellFormed() && Guided(p, t, st) && 0 < g < p.groups && s < p.n && 0 < st.now[g].current.num < t.level
    requires s < |st.now[g].shards| && st.now[g].shards[s].state == Pulling && GiverThere(p, st.now, st.now[g].current.num, s)
    ensures Leads(p, st, es, st') && Guided(p, t, st') && Measure(p, st') < Measure(p, st) && SameClients(st, st')
    ensures SameNums(st, st') && (forall h :: 0 <= h < |st.now| && h != g ==> st'.now[h] == st.now[h])
    ensures s < |st'.now[g].shards| && st'.now[g].shards[s].state == GCing
  {
    hide StageOk, Measure, Leads, MergeLast, Careful, Copies, WithState;
    var x := st.now[g];
    var c := x.current.num;
    var from := p.Owner(c - 1, s);
    var y := CleanState(p, t, st, g, s);
    es, st' := PullFrom(p, st, g, s, from, y);
    PullingMoved(p, st, g, s);
    assert t.client in y.lastRequest ==> t.knows(g, c + 1);
    PullCareful(t, g, x, st.past[g], st.pending[g], from, y);
    OthersCareful(p, t, st, st', g);
  }

  lemma PullingMoved(p: Setup, st: State, g: nat, s: nat)
    requires p.WellFormed() && Stages(p, st) && 0 < g < p.groups && s < p.n
    requires s < |st.now[g].shards| && st.now[g].shards[s].state in {Pulling, GCing}
    ensures st.now[g].current.num > 0 && Gives(p, p.Owner(st.now[g].current.num - 1, s), g, st.now[g].current.num)
  {
    NowGoesOn(p, st, g, s);
  }

  // No group changes its configuration.
  ghost predicate SameNums(st: State, st': State) {
    |st'.now| == |st.now| && forall h :: 0 <= h < |st.now| ==> st'.now[h].current.num == st.now[h].current.num
  }

  // ---------------------------------------------------------------- a delete and an adjustment

  lemma DeleteCareful(t: Plan, g: nat, x: Group, past: set<Group>, pending: set<Command>, ids: set<nat>, num: nat, caller: nat)
    requires Careful(t, g, x, past, pending)
    ensures
      var x' := ProcessDeleteShard(x, ids, num);
      Careful(t, g, x', past + {x'}, pending + {DeleteShard(ids, num, caller)})
  {
    if !t.knows(g, x.current.num) {
      var z :| z in past && Clean(t, x, z);
      assert Clean(t, ProcessDeleteShard(x, ids, num), z);
    }
  }

  lemma AdjustCareful(t: Plan, g: nat, x: Group, past: set<Group>, pending: set<Command>, ids: set<nat>, num: nat)
    requires Careful(t, g, x, past, pending)
    ensures
      var x' := ProcessAdjust(x, ids, num);
      Careful(t, g, x', past + {x'}, pending + {AdjustShardState(ids, num)})
  {
    if !t.knows(g, x.current.num) {
      var z :| z in past && Clean(t, x, z);
      assert Clean(t, ProcessAdjust(x, ids, num), z);
    }
  }

  // The three steps of a delete and what they leave; `ids` are the shards of `from` that group `g` has installed.
  lemma DropFrom(p: Setup, st: State, g: nat, s: nat, from: nat, ids: set<nat>) returns (es: seq<Event>, st2: State, st': State)
    requires p.WellFormed() && Stages(p, st) && 0 < g < p.groups && 0 < from < p.groups && from != g
    requires ids == WithState(st.now[g], GCing, from) && s in ids && st.now[g].current.num <= st.now[from].current.num
    ensures Leads(p, st, es, st') && Stages(p, st') && Measure(p, st') < Measure(p, st) && SameClients(st, st')
    ensures
      var c, x' := st.now[g].current.num, ProcessDeleteShard(st.now[from], ids, st.now[g].current.num);
      && st2.now == st.now[from := x'] && st2.past == st.past[from := st.past[from] + {x'}]
      && st2.pending == st.pending[from := st.pending[from] + {DeleteShard(ids, c, g)}][g := st.pending[g] + {AdjustShardState(ids, c)}]
    ensures Shaped(p, st2)
    ensures
      var x' := ProcessAdjust(st.now[g], ids, st.now[g].current.num);
      st'.now == st2.now[g := x'] && st'.past == st2.past[g := st2.past[g] + {x'}] && st'.pending == st2.pending
  {
    hide StageOk, Measure, Leads;
    var x := st.now[g];
    var c := x.current.num;
    assert GroupOk(p, g, x);
    var e, f, h := AskDelete(g, x, from), Apply(from, DeleteShard(ids, c, g)), Apply(g, AdjustShardState(ids, c));
    var st1 := OneStep(p, st, e);
    hide WithState, GroupsOk;
    assert st1 == Propose(st, from, DeleteShard(ids, c, g));
    st2 := OneStep(p, st1, f);
    st' := OneStep(p, st2, h);
    assert !SameProgress(st2.now[g], st'.now[g]) by { assert st'.now[g].shards[s].state == Serving; }
    es := [e] + [f] + [h];
    LeadsOn(p, st, [e], st1, [f], st2);
    LeadsOn(p, st, [e] + [f], st2, [h], st');
  }

  lemma DropRound(p: Setup, t: Plan, st: State, g: nat, s: nat) returns (es: seq<Event>, st': State)
    requires p.WellFormed() && Guided(p, t, st) && 0 < g < p.groups && s < p.n && st.now[g].current.num > 0
    requires s < |st.now[g].shards| && st.now[g].shards[s].state == GCing && GiverThere(p, st.now, st.now[g].current.num, s)
    ensures Leads(p, st, es, st') && Guided(p, t, st') && Measure(p, st') < Measure(p, st) && SameClients(st, st')
  {
    hide StageOk, Measure, Leads, Careful, Spreads, CapsOk;
    var x := st.now[g];
    var c := x.current.num;
    PullingMoved(p, st, g, s);
    var from := p.Owner(c - 1, s);
    GivenIn(p, from, g, c);
    assert GroupOk(p, g, x) && s in WithState(x, GCing, from);
    var ids := WithState(x, GCing, from);
    hide WithState;
    var st2;
    es, st2, st' := DropFrom(p, st, g, s, from, ids);
    DeleteCareful(t, from, st.now[from], st.past[from], st.pending[from], ids, c, g);
    AdjustCareful(t, g, x, st.past[g], st.pending[g], ids, c);
    DropOthers(p, t, st, st2, st', g, from, ids, c);
  }

  lemma DropOthers(p: Setup, t: Plan, st: State, st2: State, st': State, g: nat, from: nat, ids: set<nat>, c: nat)
    requires Shaped(p, st) && Shaped(p, st2) && Shaped(p, st') && 0 < g < p.groups && 0 < from < p.groups && from != g
    requires CarefulAll(p, t, st)
    requires
      var x' := ProcessDeleteShard(st.now[from], ids, c);
      && st2.now == st.now[from := x'] && st2.past == st.past[from := st.past[from] + {x'}]
      && st2.pending == st.pending[from := st.pending[from] + {DeleteShard(ids, c, g)}][g := st.pending[g] + {AdjustShardState(ids, c)}]
      && Careful(t, from, x', st2.past[from], st2.pending[from])
    requires
      var x' := ProcessAdjust(st.now[g], ids, c);
      && st'.now == st2.now[g := x'] && st'.past == st2.past[g := st2.past[g] + {x'}] && st'.pending == st2.pending
      && Careful(t, g, x', st'.past[g], st'.pending[g])
    ensures CarefulAll(p, t, st')
  {
    hide Careful;
  }

  // ---------------------------------------------------------------- getting to the caps

  // The slowest of the groups that have not got to their caps.
  lemma {:induction false} SlowestBelow(p: Setup, t: Plan, st: State, k: nat) returns (g: nat)
    requires Shaped(p, st) && |t.caps| == p.groups && k < p.groups
    requires exists h :: 0 < h <= k && st.now[h].current.num < t.caps[h]
    ensures 0 < g <= k && st.now[g].current.num < t.caps[g]
    ensures forall h :: 0 < h <= k && st.now[h].current.num < t.caps[h] ==> st.now[g].current.num <= st.now[h].current.num
  {
    if exists h :: 0 < h <= k - 1 && st.now[h].current.num < t.caps[h] {
      g := SlowestBelow(p, t, st, k - 1);
      if st.now[k].current.num < t.caps[k] && st.now[k].current.num < st.now[g].current.num {
        g := k;
      }
    } else {
      g := k;
    }
  }

  lemma GuidedStep(p: Setup, t: Plan, st: State) returns (es: seq<Event>, st': State)
    requires p.WellFormed() && Guided(p, t, st)
    requires exists h :: 0 < h < p.groups && st.now[h].current.num < t.caps[h]
    ensures Leads(p, st, es, st') && Guided(p, t, st') && Measure(p, st') < Measure(p, st) && SameClients(st, st')
  {
    hide StageOk, Measure, Leads, Spreads, CarefulAll;
    var g := SlowestBelow(p, t, st, p.groups - 1);
    if AllServing(st.now[g]) {
      es, st' := ConfigRound(p, t, st, g);
    } else {
      assert GroupOk(p, g, st.now[g]);
      var s :| 0 <= s < |st.now[g].shards| && st.now[g].shards[s].state != Serving;
      es, st' := ShardRound(p, t, st, g, s);
    }
  }

  lemma PartnerWaits(p: Setup, t: Plan, st: State, g: nat, h: nat)
    requires p.WellFormed() && CapsOk(p, t) && Shaped(p, st) && 0 < g < p.groups && 0 < h < p.groups
    requires st.now[g].current.num < t.caps[g] && Linked(p, g, h, st.now[g].current.num)
    requires forall h :: 0 < h < p.groups && st.now[h].current.num < t.caps[h] ==> st.now[g].current.num <= st.now[h].current.num
    ensures st.now[g].current.num <= st.now[h].current.num
  {
  }

  lemma ShardRound(p: Setup, t: Plan, st: State, g: nat, s: nat) returns (es: seq<Event>, st': State)
    requires p.WellFormed() && Guided(p, t, st) && 0 < g < p.groups && st.now[g].current.num < t.caps[g]
    requires forall h :: 0 < h < p.groups && st.now[h].current.num < t.caps[h] ==> st.now[g].current.num <= st.now[h].current.num
    requires s < p.n && s < |st.now[g].shards| && st.now[g].shards[s].state != Serving
    ensures Leads(p, st, es, st') && Guided(p, t, st') && Measure(p, st') < Measure(p, st) && SameClients(st, st')
  {
    hide StageOk, Measure, Leads, Spreads, CarefulAll, CapsOk;
    var c := st.now[g].current.num;
    assert GroupOk(p, g, st.now[g]);
    assert c < t.level by { CapBelow(p, t, g); }
    NowGoesOn(p, st, g, s);
    if st.now[g].shards[s].state == BePulling {
      var b := p.Owner(c, s);
      assert Gives(p, g, b, c);
      GivenIn(p, g, b, c);
      PartnerWaits(p, t, st, g, b);
      var b' := TakerWaits(p, st, g, s);
      if st.now[b].shards[s].state == Pulling {
        es, st' := PullRound(p, t, st, b, s);
      } else {
        es, st' := DropRound(p, t, st, b, s);
      }
    } else {
      PullingMoved(p, st, g, s);
      var a := p.Owner(c - 1, s);
      GivenIn(p, a, g, c);
      PartnerWaits(p, t, st, g, a);
      if st.now[g].shards[s].state == Pulling {
        es, st' := PullRound(p, t, st, g, s);
      } else {
        es, st' := DropRound(p, t, st, g, s);
      }
    }
  }

  lemma CapBelow(p: Setup, t: Plan, g: nat)
    requires p.WellFormed() && CapsOk(p, t) && g < p.groups
    ensures t.caps[g] <= t.level
  {
  }

  /** Every plan can be followed until each group is exactly where it should stop. */
  lemma {:induction false} FollowPlan(p: Setup, t: Plan, st: State) returns (es: seq<Event>, st': State)
    requires p.WellFormed() && Guided(p, t, st)
    ensures Leads(p, st, es, st') && Guided(p, t, st') && SameClients(st, st')
    ensures forall g :: 0 < g < p.groups ==> st'.now[g].current.num == t.caps[g]
    decreases Measure(p, st)
  {
    hide StageOk, GroupsOk, Measure, Leads, Spreads, CarefulAll;
    if exists h :: 0 < h < p.groups && st.now[h].current.num < t.caps[h] {
      var es1, st1 := GuidedStep(p, t, st);
      var es2, st2 := FollowPlan(p, t, st1);
      es, st' := es1 + es2, st2;
      LeadsOn(p, st, es1, st1, es2, st2);
    } else {
      es, st' := [], st;
      Stay(p, st);
    }
  }
  // A group that is where the plan stops it can start to serve a shard of its own.
  lemma StartServing(p: Setup, t: Plan, st: State, g: nat, s: nat) returns (es: seq<Event>, st': State)
    requires p.WellFormed() && Guided(p, t, st) && 0 < g < p.groups && s < p.n && st.now[g].current.num < t.level
    requires p.Owner(st.now[g].current.num, s) == g
    requires Moved(p, st.now[g].current.num, s) ==> GiverThere(p, st.now, st.now[g].current.num, s)
    ensures Leads(p, st, es, st') && Guided(p, t, st') && SameClients(st, st') && SameNums(st, st')
    ensures (forall h :: 0 <= h < |st.now| && h != g ==> st'.now[h] == st.now[h]) && Serves(st'.now[g], g, s)
  {
    hide StageOk, Measure, Leads, Spreads, CarefulAll, CapsOk;
    assert GroupOk(p, g, st.now[g]);
    NowGoesOn(p, st, g, s);
    if st.now[g].shards[s].state == Pulling {
      es, st' := PullRound(p, t, st, g, s);
      assert GroupOk(p, g, st'.now[g]);
    } else {
      es, st' := [], st;
      Stay(p, st);
    }
  }
}
