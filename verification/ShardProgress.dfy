/** Migration never deadlocks: one measure over all groups never rises, and from every reachable state it can be brought
    down to 0, where every group has reached the newest configuration and serves. */
module ShardProgress {
  import opened Requests
  import opened ShardGroup
  import opened ShardProtocol
  import opened ShardInvariant
  import opened ShardStages

  // ---------------------------------------------------------------- the measure

  // How many commands a shard in this state still waits for.
  ghost function Weight(st: ShardState): nat {
    match st
    case Serving => 0
    case GCing => 1
    case BePulling => 1
    case Pulling => 2
  }

  ghost function ShardWork(shards: seq<Shard>): (w: nat)
    ensures w <= 2 * |shards|
  {
    if shards == [] then 0 else ShardWork(shards[..|shards| - 1]) + Weight(shards[|shards| - 1].state)
  }

  // `k` configurations to go, each of them more than all shards can be worth.
  ghost function ConfigWork(n: nat, k: nat): nat {
    if k == 0 then 0 else ConfigWork(n, k - 1) + 2 * n + 1
  }

  ghost function GroupWork(p: Setup, x: Group): nat {
    ConfigWork(p.n, if x.current.num < |p.configs| then |p.configs| - 1 - x.current.num else 0) + ShardWork(x.shards)
  }

  // The work of groups 1 up to `g`.
  ghost function Work(p: Setup, now: seq<Group>, g: nat): nat
    requires g < |now|
  {
    if g == 0 then 0 else Work(p, now, g - 1) + GroupWork(p, now[g])
  }

  ghost function Measure(p: Setup, st: State): nat {
    if |st.now| == 0 then 0 else Work(p, st.now, |st.now| - 1)
  }

  lemma {:induction false} LessShardWork(a: seq<Shard>, b: seq<Shard>)
    requires |a| == |b| && forall s :: 0 <= s < |a| ==> Weight(b[s].state) <= Weight(a[s].state)
    ensures ShardWork(b) <= ShardWork(a)
    ensures (exists s :: 0 <= s < |a| && Weight(b[s].state) < Weight(a[s].state)) ==> ShardWork(b) < ShardWork(a)
  {
    if a != [] {
      var a', b' := a[..|a| - 1], b[..|b| - 1];
      assert forall s :: 0 <= s < |a'| ==> a'[s] == a[s] && b'[s] == b[s];
      LessShardWork(a', b');
      if s :| 0 <= s < |a| && Weight(b[s].state) < Weight(a[s].state) {
        if s < |a| - 1 {
          assert Weight(b'[s].state) < Weight(a'[s].state);
        }
      }
    }
  }

  lemma {:induction false} WorkOfUpdate(p: Setup, now: seq<Group>, g: nat, x': Group, k: nat)
    requires 0 < g < |now| && k < |now|
    ensures Work(p, now[g := x'], k) == Work(p, now, k) + if g <= k then GroupWork(p, x') - GroupWork(p, now[g]) else 0
  {
    hide GroupWork;
    if k > 0 {
      WorkOfUpdate(p, now, g, x', k - 1);
    }
  }

  lemma {:induction false} NoWork(p: Setup, now: seq<Group>, k: nat)
    requires k < |now|
    ensures Work(p, now, k) == 0 <==> forall g :: 0 < g <= k ==> GroupWork(p, now[g]) == 0
  {
    hide GroupWork;
    if k > 0 {
      NoWork(p, now, k - 1);
    }
  }

  lemma {:induction false} NoShardWork(shards: seq<Shard>)
    ensures ShardWork(shards) == 0 <==> forall s :: 0 <= s < |shards| ==> shards[s].state == Serving
  {
    if shards != [] {
      var rest := shards[..|shards| - 1];
      NoShardWork(rest);
      assert forall s :: 0 <= s < |rest| ==> shards[s] == rest[s];
    }
  }

  // Nothing is left to do: every group has the newest configuration and no shard on the move.
  ghost predicate Settled(p: Setup, st: State) {
    forall g :: 0 < g < |st.now| ==> st.now[g].current.num == |p.configs| - 1 && AllServing(st.now[g])
  }

  lemma SettledIff(p: Setup, st: State)
    requires p.WellFormed() && Stages(p, st)
    ensures Measure(p, st) == 0 <==> Settled(p, st)
  {
    hide Work, StageOk;
    if |st.now| > 0 {
      NoWork(p, st.now, |st.now| - 1);
      forall g | 0 < g < |st.now|
        ensures GroupWork(p, st.now[g]) == 0 <==> st.now[g].current.num == |p.configs| - 1 && AllServing(st.now[g])
      {
        assert GroupOk(p, g, st.now[g]);
        NoShardWork(st.now[g].shards);
      }
    }
  }

  // ---------------------------------------------------------------- no step raises the measure

  ghost predicate SameProgress(x: Group, x': Group) {
    && x'.current.num == x.current.num && |x'.shards| == |x.shards|
    && forall s :: 0 <= s < |x.shards| ==> x'.shards[s].state == x.shards[s].state
  }

  lemma ConfigLowers(p: Setup, x: Group, x': Group)
    requires x'.current.num == x.current.num + 1 < |p.configs| && |x'.shards| == |x.shards| == p.n
    ensures GroupWork(p, x') < GroupWork(p, x)
  {
  }

  lemma StatesLower(p: Setup, x: Group, x': Group)
    requires x'.current.num == x.current.num && |x'.shards| == |x.shards|
    requires forall s :: 0 <= s < |x.shards| ==>
      x'.shards[s].state == x.shards[s].state || Weight(x'.shards[s].state) < Weight(x.shards[s].state)
    ensures if SameProgress(x, x') then GroupWork(p, x') == GroupWork(p, x) else GroupWork(p, x') < GroupWork(p, x)
  {
    LessShardWork(x.shards, x'.shards);
    if SameProgress(x, x') {
      LessShardWork(x'.shards, x.shards);
    }
  }

  /** Applying a command either leaves configuration and shard states alone, or lowers the group's work. */
  lemma ApplyLowers(p: Setup, st: State, g: nat, cmd: Command)
    requires p.WellFormed() && Stages(p, st) && Enabled(p, st, Apply(g, cmd)) && Sized(p, st, Apply(g, cmd))
    ensures
      var st' := Applied(p, st, g, cmd);
      && st'.now == st.now[g := st'.now[g]]
      && if SameProgress(st.now[g], st'.now[g]) then GroupWork(p, st'.now[g]) == GroupWork(p, st.now[g])
         else GroupWork(p, st'.now[g]) < GroupWork(p, st.now[g])
  {
    hide GroupWork, StageOk, MergeLast;
    var x, x' := st.now[g], Applied(p, st, g, cmd).now[g];
    PendingStage(p, st, g, cmd, 0);
    assert GroupOk(p, g, x);
    if cmd.AddConfig? && cmd.config.num == x.current.num + 1 {
      ConfigLowers(p, x, x');
    } else {
      StatesLower(p, x, x');
    }
  }

  /** No step of any kind raises the measure, and a step that moves a group on lowers it. */
  lemma NeverRises(p: Setup, st: State, e: Event)
    requires p.WellFormed() && Stages(p, st) && Enabled(p, st, e) && Sized(p, st, e)
    ensures
      var st' := Exec(p, st, e);
      && |st'.now| == |st.now|
      && if forall g :: 0 < g < |st.now| ==> SameProgress(st.now[g], st'.now[g]) then Measure(p, st') == Measure(p, st)
         else Measure(p, st') < Measure(p, st)
  {
    hide GroupWork, Work, GroupsOk, StageOk;
    if e.Apply? {
      ApplyLowers(p, st, e.g, e.cmd);
      var st' := Applied(p, st, e.g, e.cmd);
      WorkOfUpdate(p, st.now, e.g, st'.now[e.g], |st.now| - 1);
      assert forall g :: 0 < g < |st.now| && g != e.g ==> st'.now[g] == st.now[g];
    }
  }

  // ---------------------------------------------------------------- some step can always lower it

  // The events can be taken one after the other from `st`, and end in `st'`.
  ghost predicate Leads(p: Setup, st: State, es: seq<Event>, st': State)
    requires p.WellFormed()
    decreases |es|
  {
    if es == [] then st' == st
    else Shaped(p, st) && Enabled(p, st, es[0]) && Sized(p, st, es[0]) && Leads(p, Exec(p, st, es[0]), es[1..], st')
  }

  ghost predicate CanLower(p: Setup, st: State)
    requires p.WellFormed()
  {
    exists es, st' :: Leads(p, st, es, st') && Measure(p, st') < Measure(p, st)
  }

  // Two steps of which the second moves group `g` on.
  lemma TwoStepsLower(p: Setup, st: State, e: Event, st1: State, f: Event, st2: State, g: nat)
    requires p.WellFormed() && Stages(p, st) && Step(p, st, e, st1)
    requires Stages(p, st1) && Step(p, st1, f, st2)
    requires 0 < g < |st1.now| == |st2.now| && !SameProgress(st1.now[g], st2.now[g])
    ensures CanLower(p, st)
  {
    hide StageOk, GroupsOk, Exec, Enabled, Measure, SameProgress;
    NeverRises(p, st, e);
    NeverRises(p, st1, f);
    assert [e, f][1..] == [f] && [f][1..] == [];
    assert Leads(p, st2, [], st2);
    assert Leads(p, st1, [f], st2);
    assert Leads(p, st, [e, f], st2);
  }

  // All groups are at configuration `k` or later.
  ghost predicate AllReached(st: State, k: nat) {
    forall g :: 0 < g < |st.now| ==> k <= st.now[g].current.num
  }

  lemma NextConfigStep(p: Setup, st: State, g: nat)
    requires p.WellFormed() && Stages(p, st) && 0 < g < p.groups
    requires AllServing(st.now[g]) && st.now[g].current.num + 1 < |p.configs|
    ensures CanLower(p, st)
  {
    hide CanLower, StageOk;
    var x := st.now[g];
    var e := ProposeConfig(g, x);
    StepStages(p, st, e);
    var st1 := Exec(p, st, e);
    var f := Apply(g, AddConfig(p.configs[x.current.num + 1]));
    StepStages(p, st1, f);
    TwoStepsLower(p, st, e, st1, f, Exec(p, st1, f), g);
  }

  // While the new owner waits for the data, the old owner keeps it ready at the same configuration.
  lemma DataReady(p: Setup, st: State, g: nat, s: nat)
    requires p.WellFormed() && Stages(p, st) && 0 < g < p.groups && s < p.n && st.now[g].current.num > 0
    requires s < |st.now[g].shards| && st.now[g].shards[s].state == Pulling
    requires GiverThere(p, st.now, st.now[g].current.num, s)
    ensures
      var a := p.Owner(st.now[g].current.num - 1, s);
      && 0 < a < p.groups && a != g && st.now[a].current.num == st.now[g].current.num
      && s < |st.now[a].shards| && st.now[a].shards[s].state == BePulling
  {
    hide CommandStage;
    var k := st.now[g].current.num;
    NowGoesOn(p, st, g, s);
    var a := p.Owner(k - 1, s);
    assert GroupOk(p, a, st.now[a]);
    assert StageOk(p, st, s) && LinkOk(p, st.now, k, s);
  }

  lemma PullingStep(p: Setup, st: State, g: nat, s: nat)
    requires p.WellFormed() && Stages(p, st) && 0 < g < p.groups && s < p.n && AllReached(st, st.now[g].current.num)
    requires s < |st.now[g].shards| && st.now[g].shards[s].state == Pulling
    ensures CanLower(p, st)
  {
    hide CanLower, StageOk;
    NowGoesOn(p, st, g, s);
    DataReady(p, st, g, s);
    PullThenInstall(p, st, g, s, p.Owner(st.now[g].current.num - 1, s));
  }

  lemma PullThenInstall(p: Setup, st: State, g: nat, s: nat, from: nat)
    requires p.WellFormed() && Stages(p, st) && 0 < g < p.groups && 0 < from < p.groups && s < p.n
    requires st.now[from].current.num == st.now[g].current.num > 0
    requires p.Owner(st.now[g].current.num - 1, s) == from
    requires s < |st.now[g].shards| && st.now[g].shards[s].state == Pulling
    requires s < |st.now[from].shards| && st.now[from].shards[s].state == BePulling
    ensures CanLower(p, st)
  {
    hide CanLower, SameProgress, StageOk;
    var x, y := st.now[g], st.now[from];
    assert GroupOk(p, g, x) && s in WithState(x, Pulling, from);
    var e := Pull(g, x, from, y);
    StepStages(p, st, e);
    var cmd := InsertShard(x.current.num, Copies(y, WithState(x, Pulling, from)), y.lastRequest);
    assert s in cmd.data;
    var st1 := Exec(p, st, e);
    assert st1.now == st.now && cmd in st1.pending[g];
    hide Copies, WithState, GroupsOk;
    var f := Apply(g, cmd);
    InstallMoves(p, st1, g, s, cmd);
    TwoStepsLower(p, st, e, st1, f, Exec(p, st1, f), g);
  }

  lemma InstallMoves(p: Setup, st: State, g: nat, s: nat, cmd: Command)
    requires p.WellFormed() && Stages(p, st) && 0 < g < p.groups
    requires cmd.InsertShard? && cmd in st.pending[g] && cmd.num == st.now[g].current.num && s in cmd.data
    requires s < |st.now[g].shards| && st.now[g].shards[s].state == Pulling
    ensures Sized(p, st, Apply(g, cmd)) && Shaped(p, Applied(p, st, g, cmd))
    ensures !SameProgress(st.now[g], Applied(p, st, g, cmd).now[g])
  {
    StepStages(p, st, Apply(g, cmd));
    assert Applied(p, st, g, cmd).now[g].shards[s].state == GCing;
  }

  lemma AddStep(p: Setup, st: State, e: Event, es: seq<Event>, st': State)
    requires p.WellFormed() && Shaped(p, st) && Enabled(p, st, e) && Sized(p, st, e) && Leads(p, Exec(p, st, e), es, st')
    ensures Leads(p, st, [e] + es, st')
  {
    assert ([e] + es)[1..] == es;
  }

  lemma GCingStep(p: Setup, st: State, g: nat, s: nat)
    requires p.WellFormed() && Stages(p, st) && 0 < g < p.groups && s < p.n && AllReached(st, st.now[g].current.num)
    requires s < |st.now[g].shards| && st.now[g].shards[s].state == GCing
    ensures CanLower(p, st)
  {
    hide GroupWork, Work, Leads, StageOk;
    var x := st.now[g];
    NowGoesOn(p, st, g, s);
    var from := p.Owner(x.current.num - 1, s);
    assert s in WithState(x, GCing, from);
    var e := AskDelete(g, x, from);
    StepStages(p, st, e);
    var st1 := Exec(p, st, e);
    NeverRises(p, st, e);
    assert Measure(p, st1) <= Measure(p, st);
    DeleteThenAdjust(p, st1, g, s, from, WithState(x, GCing, from));
    var es, st' :| Leads(p, st1, es, st') && Measure(p, st') < Measure(p, st1);
    AddStep(p, st, e, es, st');
  }

  lemma DeleteThenAdjust(p: Setup, st: State, g: nat, s: nat, from: nat, ids: set<nat>)
    requires p.WellFormed() && Stages(p, st) && 0 < g < p.groups && 0 < from < p.groups && from != g
    requires st.now[g].current.num <= st.now[from].current.num
    requires DeleteShard(ids, st.now[g].current.num, g) in st.pending[from]
    requires s in ids && s < |st.now[g].shards| && st.now[g].shards[s].state == GCing
    ensures CanLower(p, st)
  {
    hide CanLower, StageOk;
    var x := st.now[g];
    var e := Apply(from, DeleteShard(ids, x.current.num, g));
    StepStages(p, st, e);
    var st1 := Exec(p, st, e);
    assert st1.now[g] == x && AdjustShardState(ids, x.current.num) in st1.pending[g];
    var f := Apply(g, AdjustShardState(ids, x.current.num));
    AdjustMoves(p, st1, g, s, ids);
    TwoStepsLower(p, st, e, st1, f, Exec(p, st1, f), g);
  }

  lemma AdjustMoves(p: Setup, st: State, g: nat, s: nat, ids: set<nat>)
    requires p.WellFormed() && Stages(p, st) && 0 < g < p.groups && s in ids
    requires AdjustShardState(ids, st.now[g].current.num) in st.pending[g]
    requires s < |st.now[g].shards| && st.now[g].shards[s].state == GCing
    ensures
      var cmd := AdjustShardState(ids, st.now[g].current.num);
      && Sized(p, st, Apply(g, cmd)) && Shaped(p, Applied(p, st, g, cmd))
      && !SameProgress(st.now[g], Applied(p, st, g, cmd).now[g])
  {
    var cmd := AdjustShardState(ids, st.now[g].current.num);
    StepStages(p, st, Apply(g, cmd));
    assert Applied(p, st, g, cmd).now[g].shards[s].state == Serving;
  }

  // A group that still has to give a shard away is waited for by the new owner.
  lemma BePullingStep(p: Setup, st: State, g: nat, s: nat)
    requires p.WellFormed() && Stages(p, st) && 0 < g < p.groups && s < p.n && AllReached(st, st.now[g].current.num)
    requires s < |st.now[g].shards| && st.now[g].shards[s].state == BePulling
    ensures CanLower(p, st)
  {
    hide StageOk;
    NowGoesOn(p, st, g, s);
    var b := TakerWaits(p, st, g, s);
    if st.now[b].shards[s].state == Pulling {
      PullingStep(p, st, b, s);
    } else {
      GCingStep(p, st, b, s);
    }
  }

  lemma TakerWaits(p: Setup, st: State, g: nat, s: nat) returns (b: nat)
    requires p.WellFormed() && Stages(p, st) && 0 < g < p.groups && s < p.n
    requires s < |st.now[g].shards| && st.now[g].shards[s].state == BePulling
    requires p.Owner(st.now[g].current.num, s) != 0
    requires st.now[g].current.num <= st.now[p.Owner(st.now[g].current.num, s)].current.num
    ensures b == p.Owner(st.now[g].current.num, s)
    ensures 0 < b < p.groups && st.now[b].current.num == st.now[g].current.num
    ensures s < |st.now[b].shards| && st.now[b].shards[s].state in {Pulling, GCing}
  {
    hide CommandStage;
    var k := st.now[g].current.num;
    NowGoesOn(p, st, g, s);
    b := p.Owner(k, s);
    NowGoesOn(p, st, b, s);
    assert StageOk(p, st, s) && LinkOk(p, st.now, k, s);
  }

  lemma {:induction false} Slowest(p: Setup, st: State, k: nat) returns (g: nat)
    requires 0 < k < |st.now|
    ensures 0 < g <= k && forall h :: 0 < h <= k ==> st.now[g].current.num <= st.now[h].current.num
  {
    g := k;
    if k > 1 {
      var g' := Slowest(p, st, k - 1);
      if st.now[g'].current.num < st.now[k].current.num {
        g := g';
      }
    }
  }

  /** As long as any group lags or any shard is on the move, some steps can be taken that lower the measure: groups
      that swap shards, or wait for each other in any other way, never block. */
  lemma SomeoneCanMove(p: Setup, st: State)
    requires p.WellFormed() && Stages(p, st) && !Settled(p, st)
    ensures CanLower(p, st)
  {
    hide CanLower, StageOk;
    var g := Slowest(p, st, |st.now| - 1);
    assert GroupOk(p, g, st.now[g]);
    if !AllServing(st.now[g]) {
      UnfinishedStep(p, st, g);
    } else if st.now[g].current.num + 1 < |p.configs| {
      NextConfigStep(p, st, g);
    } else {
      var h :| 0 < h < |st.now| && !(st.now[h].current.num == |p.configs| - 1 && AllServing(st.now[h]));
      assert GroupOk(p, h, st.now[h]);
      UnfinishedStep(p, st, h);
    }
  }

  lemma UnfinishedStep(p: Setup, st: State, g: nat)
    requires p.WellFormed() && Stages(p, st) && 0 < g < p.groups && AllReached(st, st.now[g].current.num)
    requires !AllServing(st.now[g])
    ensures CanLower(p, st)
  {
    hide CanLower, AllReached, StageOk;
    assert GroupOk(p, g, st.now[g]);
    var s :| 0 <= s < |st.now[g].shards| && st.now[g].shards[s].state != Serving;
    match st.now[g].shards[s].state
    case Pulling => PullingStep(p, st, g, s);
    case GCing => GCingStep(p, st, g, s);
    case BePulling => BePullingStep(p, st, g, s);
  }

  lemma {:induction false} LeadsStages(p: Setup, st: State, es: seq<Event>, st': State)
    requires p.WellFormed() && Stages(p, st) && Leads(p, st, es, st')
    ensures Stages(p, st')
    decreases |es|
  {
    hide Stages, Exec;
    if es != [] {
      StepStages(p, st, es[0]);
      LeadsStages(p, Exec(p, st, es[0]), es[1..], st');
    }
  }

  lemma {:induction false} LeadsOn(p: Setup, st: State, es: seq<Event>, st1: State, es': seq<Event>, st2: State)
    requires p.WellFormed() && Leads(p, st, es, st1) && Leads(p, st1, es', st2)
    ensures Leads(p, st, es + es', st2)
    decreases |es|
  {
    hide Exec, Enabled;
    if es == [] {
      assert es + es' == es';
    } else {
      LeadsOn(p, Exec(p, st, es[0]), es[1..], st1, es', st2);
      assert (es + es')[1..] == es[1..] + es';
    }
  }

  lemma {:induction false} CanSettle(p: Setup, st: State)
    requires p.WellFormed() && Stages(p, st)
    ensures exists es, st' :: Leads(p, st, es, st') && Settled(p, st')
    decreases Measure(p, st)
  {
    hide Stages, Leads, Measure, Settled;
    if Settled(p, st) {
      assert Leads(p, st, [], st) by { Stay(p, st); }
    } else {
      SomeoneCanMove(p, st);
      var es, st1 :| Leads(p, st, es, st1) && Measure(p, st1) < Measure(p, st);
      LeadsStages(p, st, es, st1);
      CanSettle(p, st1);
      var es', st2 :| Leads(p, st1, es', st2) && Settled(p, st2);
      LeadsOn(p, st, es, st1, es', st2);
    }
  }

  lemma Stay(p: Setup, st: State)
    requires p.WellFormed()
    ensures Leads(p, st, [], st)
  {
  }

  /** From every state of every run, for any sequence of configurations, the migration can be completed: the measure can
      be brought to 0, and it can be lowered exactly while something is left to do. */
  lemma NeverDeadlocks(p: Setup, trace: seq<State>, events: seq<Event>, i: nat)
    requires p.WellFormed() && Run(p, trace, events) && i < |trace|
    ensures exists es, st' :: Leads(p, trace[i], es, st') && Settled(p, st') && Measure(p, st') == 0
    ensures CanLower(p, trace[i]) <==> !Settled(p, trace[i])
  {
    hide Stages, Leads, Measure, Settled;
    var st := trace[i];
    RunStages(p, trace, events, i);
    CanSettle(p, st);
    var es, st' :| Leads(p, st, es, st') && Settled(p, st');
    LeadsStages(p, st, es, st');
    SettledIff(p, st');
    SettledIff(p, st);
    if !Settled(p, st) {
      SomeoneCanMove(p, st);
    }
  }
}
