/** How far the groups have got with each shard, whatever the configurations are: this part of the invariant speaks of
    configuration numbers and shard states only, never of data. */
module ShardStages {
  import opened Requests
  import opened ShardGroup
  import opened ShardProtocol
  import opened ShardInvariant

  // ---------------------------------------------------------------- the invariant

  // Within one configuration a shard's state only goes on.
  ghost predicate Follows(a: ShardState, b: ShardState) {
    match a
    case Serving => b == Serving
    case GCing => b == GCing || b == Serving
    case BePulling => b == BePulling || b == Serving
    case Pulling => b != BePulling
  }

  ghost predicate GoesOn(p: Setup, g: nat, x: Group, x': Group, s: nat)
    requires p.WellFormed()
  {
    && GroupOk(p, g, x) && GroupOk(p, g, x') && s < p.n && Fits(p, g, x, s) && Fits(p, g, x', s)
    && x.current.num <= x'.current.num
    && (x'.current.num == x.current.num ==> Follows(x.shards[s].state, x'.shards[s].state))
  }

  // The group that gets the shard in configuration `m` has installed it.
  ghost predicate HasInstalled(p: Setup, now: seq<Group>, m: nat, s: nat)
    requires p.WellFormed()
  {
    var b := p.Owner(m, s);
    && b < |now| && s < |now[b].shards|
    && (now[b].current.num > m || (now[b].current.num == m && now[b].shards[s].state in {GCing, Serving}))
  }

  // The group that gives the shard away in configuration `m` has got there.
  ghost predicate GiverThere(p: Setup, now: seq<Group>, m: nat, s: nat)
    requires p.WellFormed() && m > 0
  {
    p.Owner(m - 1, s) < |now| && now[p.Owner(m - 1, s)].current.num >= m
  }

  // The new owner is done only after the old one has released the shard, that only after it was installed, and that
  // only after the old owner has got there.
  ghost predicate LinkOk(p: Setup, now: seq<Group>, m: nat, s: nat)
    requires p.WellFormed()
  {
    Moved(p, m, s) && p.Owner(m, s) < |now| ==>
      && (DoneWith(now[p.Owner(m, s)], m, s) ==> Released(p, now, m, s))
      && (Released(p, now, m, s) ==> HasInstalled(p, now, m, s))
      && (HasInstalled(p, now, m, s) ==> GiverThere(p, now, m, s))
  }

  ghost predicate CommandStage(p: Setup, now: seq<Group>, g: nat, cmd: Command, s: nat)
    requires p.WellFormed() && g < |now|
  {
    match cmd
    case ClientOp(req) => true
    case InsertShard(num, data, last) => s in data ==> Moved(p, num, s) && p.Owner(num, s) == g && GiverThere(p, now, num, s)
    case AddConfig(c) =>
      && 0 < c.num < |p.configs| && c == p.configs[c.num] && now[g].current.num + 1 >= c.num
      && (now[g].current.num + 1 == c.num ==> s < |now[g].shards| && now[g].shards[s].state == Serving)
    case DeleteShard(ids, num, caller) =>
      s in ids ==>
        num > 0 && Moved(p, num, s) && p.Owner(num, s) == caller && p.Owner(num - 1, s) == g && HasInstalled(p, now, num, s)
    case AdjustShardState(ids, num) =>
      s in ids ==> Moved(p, num, s) && p.Owner(num, s) == g && HasInstalled(p, now, num, s) && Released(p, now, num, s)
  }

  ghost predicate StageOk(p: Setup, st: State, s: nat)
    requires p.WellFormed() && Shaped(p, st) && s < p.n
  {
    && (forall m: nat :: m < |p.configs| ==> LinkOk(p, st.now, m, s))
    && (forall g, x :: 0 < g < p.groups && x in st.past[g] ==> GoesOn(p, g, x, st.now[g], s))
    && (forall g, cmd :: 0 < g < p.groups && cmd in st.pending[g] ==> CommandStage(p, st.now, g, cmd, s))
  }

  ghost predicate Stages(p: Setup, st: State)
    requires p.WellFormed()
  {
    Shaped(p, st) && GroupsOk(p, st) && forall s :: 0 <= s < p.n ==> StageOk(p, st, s)
  }

  lemma InitStages(p: Setup)
    requires p.WellFormed()
    ensures Stages(p, Init(p))
  {
    var st := Init(p);
    forall s | 0 <= s < p.n ensures StageOk(p, st, s) {
      hide Init;
      assert forall g :: 0 <= g < p.groups ==> st.now[g] == Fresh(p) && st.past[g] == {Fresh(p)};
    }
  }

  // ---------------------------------------------------------------- one group moves on

  lemma InstalledStays(p: Setup, now: seq<Group>, g: nat, x': Group, m: nat, s: nat)
    requires p.WellFormed() && g < |now| && GoesOn(p, g, now[g], x', s) && HasInstalled(p, now, m, s)
    ensures HasInstalled(p, now[g := x'], m, s)
  {
  }

  lemma ReleasedKept(p: Setup, now: seq<Group>, g: nat, x': Group, m: nat, s: nat)
    requires p.WellFormed() && m > 0 && g < |now| && GoesOn(p, g, now[g], x', s) && Moved(p, m, s) && Released(p, now, m, s)
    ensures Released(p, now[g := x'], m, s)
  {
  }

  lemma GiverStays(p: Setup, now: seq<Group>, g: nat, x': Group, m: nat, s: nat)
    requires p.WellFormed() && m > 0 && g < |now| && GoesOn(p, g, now[g], x', s) && GiverThere(p, now, m, s)
    ensures GiverThere(p, now[g := x'], m, s)
  {
  }

  lemma CommandKept(p: Setup, now: seq<Group>, g: nat, x': Group, h: nat, cmd: Command, s: nat)
    requires p.WellFormed() && g < |now| && h < |now| && GoesOn(p, g, now[g], x', s) && CommandStage(p, now, h, cmd, s)
    ensures CommandStage(p, now[g := x'], h, cmd, s)
  {
    hide HasInstalled, Released, GiverThere;
    if cmd.InsertShard? && s in cmd.data {
      GiverStays(p, now, g, x', cmd.num, s);
    } else if (cmd.DeleteShard? || cmd.AdjustShardState?) && s in cmd.ids {
      InstalledStays(p, now, g, x', cmd.num, s);
      if cmd.AdjustShardState? {
        ReleasedKept(p, now, g, x', cmd.num, s);
      }
    }
  }

  lemma GoesOnFurther(p: Setup, g: nat, x: Group, now: Group, x': Group, s: nat)
    requires p.WellFormed() && GoesOn(p, g, x, now, s) && GoesOn(p, g, now, x', s)
    ensures GoesOn(p, g, x, x', s)
  {
  }

  /** What a move must meet: a shard that starts to serve for its new owner has been released, one that its old owner
      lets go has been installed, one that is installed comes from a group that has got there, and the next configuration
      is taken with the shard serving. */
  ghost predicate Proper(p: Setup, now: seq<Group>, g: nat, x': Group, s: nat)
    requires p.WellFormed() && g < |now|
  {
    var x := now[g];
    && GoesOn(p, g, x, x', s)
    && (x'.current.num > x.current.num ==>
          && x'.current.num == x.current.num + 1 && x.shards[s].state == Serving
          && x'.shards[s].state == StateAfter(Serving, g, p.Owner(x.current.num, s), p.Owner(x.current.num + 1, s)))
    && (x'.current.num == x.current.num && x'.shards[s].state == Serving && x.shards[s].state == GCing ==>
          Released(p, now, x.current.num, s))
    && (x'.current.num == x.current.num && x'.shards[s].state == Serving && x.shards[s].state == BePulling ==>
          HasInstalled(p, now, x.current.num, s))
    && (x'.current.num == x.current.num && x'.shards[s].state == Serving ==> x.shards[s].state != Pulling)
    && (x'.current.num == x.current.num && x'.shards[s].state == GCing && x.shards[s].state == Pulling ==>
          x.current.num > 0 && GiverThere(p, now, x.current.num, s))
  }

  lemma LinkKept(p: Setup, now: seq<Group>, g: nat, x': Group, m: nat, s: nat)
    requires p.WellFormed() && 0 < g < |now| && Proper(p, now, g, x', s) && LinkOk(p, now, m, s)
    ensures LinkOk(p, now[g := x'], m, s)
  {
    if Moved(p, m, s) {
      if HasInstalled(p, now, m, s) {
        InstalledStays(p, now, g, x', m, s);
      }
      if Released(p, now, m, s) {
        ReleasedKept(p, now, g, x', m, s);
      }
      if GiverThere(p, now, m, s) {
        GiverStays(p, now, g, x', m, s);
      }
    }
  }

  lemma StageMoves(p: Setup, st: State, st': State, g: nat, x': Group, s: nat)
    requires p.WellFormed() && Shaped(p, st) && Shaped(p, st') && 0 < g < p.groups && s < p.n && StageOk(p, st, s)
    requires st'.now == st.now[g := x'] && st'.past == st.past[g := st.past[g] + {x'}] && st'.pending == st.pending
    requires st.now[g] in st.past[g] && Proper(p, st.now, g, x', s)
    ensures StageOk(p, st', s)
  {
    hide LinkOk, CommandStage, GoesOn;
    assert GoesOn(p, g, st.now[g], x', s) && GoesOn(p, g, x', x', s) by { Itself(p, g, st.now[g], x', s); }
    forall m: nat | m < |p.configs| ensures LinkOk(p, st'.now, m, s) {
      LinkKept(p, st.now, g, x', m, s);
    }
    forall h, x | 0 < h < p.groups && x in st'.past[h] ensures GoesOn(p, h, x, st'.now[h], s) {
      if h == g && x in st.past[h] {
        GoesOnFurther(p, g, x, st.now[g], x', s);
      }
    }
    forall h, cmd | 0 < h < p.groups && cmd in st'.pending[h] ensures CommandStage(p, st'.now, h, cmd, s) {
      CommandKept(p, st.now, g, x', h, cmd, s);
    }
  }

  lemma GoesOnGroup(p: Setup, g: nat, x: Group, s: nat)
    requires p.WellFormed() && GoesOn(p, g, x, x, s)
    ensures GroupOk(p, g, x)
  {
  }

  lemma Itself(p: Setup, g: nat, x: Group, x': Group, s: nat)
    requires p.WellFormed() && GoesOn(p, g, x, x', s)
    ensures GoesOn(p, g, x', x', s)
  {
  }

  lemma MovedStages(p: Setup, st: State, st': State, g: nat, x': Group)
    requires p.WellFormed() && Stages(p, st) && Shaped(p, st') && 0 < g < p.groups
    requires st'.now == st.now[g := x'] && st'.past == st.past[g := st.past[g] + {x'}] && st'.pending == st.pending
    requires forall s :: 0 <= s < p.n ==> Proper(p, st.now, g, x', s)
    ensures Stages(p, st')
  {
    hide Proper, StageOk;
    assert GroupOk(p, g, x') by { ProperGroup(p, st.now, g, x', 0); }
    forall s | 0 <= s < p.n ensures StageOk(p, st', s) {
      StageMoves(p, st, st', g, x', s);
    }
  }

  lemma ProperGroup(p: Setup, now: seq<Group>, g: nat, x': Group, s: nat)
    requires p.WellFormed() && g < |now| && Proper(p, now, g, x', s)
    ensures GroupOk(p, g, x')
  {
  }

  // ---------------------------------------------------------------- every step

  lemma ProposeStages(p: Setup, st: State, g: nat, cmd: Command)
    requires p.WellFormed() && Stages(p, st) && 0 < g < p.groups
    requires forall s :: 0 <= s < p.n ==> CommandStage(p, st.now, g, cmd, s)
    requires cmd.AddConfig? ==> |cmd.config.shards| == p.n
    requires cmd.DeleteShard? ==> 0 < cmd.caller < p.groups
    ensures Stages(p, Propose(st, g, cmd))
  {
    hide LinkOk, GoesOn, CommandStage;
    var st' := Propose(st, g, cmd);
    assert GroupsOk(p, st');
    forall s | 0 <= s < p.n ensures StageOk(p, st', s) {
      assert StageOk(p, st, s);
    }
  }

  lemma ProposeConfigStages(p: Setup, st: State, g: nat, x: Group)
    requires p.WellFormed() && Stages(p, st) && Enabled(p, st, ProposeConfig(g, x))
    ensures Stages(p, Exec(p, st, ProposeConfig(g, x)))
  {
    hide LinkOk;
    var cmd := AddConfig(p.configs[x.current.num + 1]);
    forall s | 0 <= s < p.n ensures CommandStage(p, st.now, g, cmd, s) {
      assert StageOk(p, st, s);
      assert GoesOn(p, g, x, st.now[g], s);
    }
    ProposeStages(p, st, g, cmd);
  }

  lemma PullStages(p: Setup, st: State, g: nat, x: Group, from: nat, y: Group)
    requires p.WellFormed() && Stages(p, st) && Enabled(p, st, Pull(g, x, from, y))
    ensures Stages(p, Exec(p, st, Pull(g, x, from, y)))
  {
    hide LinkOk;
    var cmd := InsertShard(x.current.num, Copies(y, WithState(x, Pulling, from)), y.lastRequest);
    forall s | 0 <= s < p.n ensures CommandStage(p, st.now, g, cmd, s) {
      assert StageOk(p, st, s);
      assert GoesOn(p, g, x, st.now[g], s) && GoesOn(p, from, y, st.now[from], s);
    }
    ProposeStages(p, st, g, cmd);
  }

  lemma AskDeleteStages(p: Setup, st: State, g: nat, x: Group, from: nat)
    requires p.WellFormed() && Stages(p, st) && Enabled(p, st, AskDelete(g, x, from))
    ensures Stages(p, Exec(p, st, AskDelete(g, x, from)))
  {
    hide LinkOk;
    var ids := WithState(x, GCing, from);
    var cmd := DeleteShard(ids, x.current.num, g);
    forall s | 0 <= s < p.n ensures CommandStage(p, st.now, from, cmd, s) {
      assert StageOk(p, st, s);
      if s in ids {
        assert GoesOn(p, g, x, st.now[g], s);
      }
    }
    ProposeStages(p, st, from, cmd);
  }

  lemma NowGoesOn(p: Setup, st: State, g: nat, s: nat)
    requires p.WellFormed() && Stages(p, st) && 0 < g < p.groups && s < p.n
    ensures GoesOn(p, g, st.now[g], st.now[g], s)
  {
    assert StageOk(p, st, s);
  }

  lemma ApplyConfigStages(p: Setup, st: State, g: nat, c: Config)
    requires p.WellFormed() && Stages(p, st) && 0 < g < p.groups && AddConfig(c) in st.pending[g]
    ensures |st.now[g].shards| == |st.now[g].current.shards| == |c.shards| == p.n
    ensures Stages(p, Applied(p, st, g, AddConfig(c)))
  {
    hide LinkOk, StageOk;
    var x := st.now[g];
    assert GroupOk(p, g, x) && |c.shards| == p.n;
    var x', st' := ProcessAddConfig(x, g, c), Applied(p, st, g, AddConfig(c));
    forall s | 0 <= s < p.n ensures Proper(p, st.now, g, x', s) {
      NowGoesOn(p, st, g, s);
      assert CommandStage(p, st.now, g, AddConfig(c), s) by { PendingStage(p, st, g, AddConfig(c), s); }
    }
    MovedStages(p, st, st', g, x');
  }

  lemma PendingStage(p: Setup, st: State, g: nat, cmd: Command, s: nat)
    requires p.WellFormed() && Stages(p, st) && 0 < g < p.groups && cmd in st.pending[g] && s < p.n
    ensures CommandStage(p, st.now, g, cmd, s)
  {
    assert StageOk(p, st, s);
  }

  // A command that is applied within the configuration.
  lemma ApplyInPlace(p: Setup, st: State, g: nat, cmd: Command)
    requires p.WellFormed() && Stages(p, st) && 0 < g < p.groups && cmd in st.pending[g] && !cmd.AddConfig? && !cmd.DeleteShard?
    ensures |st.now[g].shards| == |st.now[g].current.shards| == p.n
    ensures Stages(p, Applied(p, st, g, cmd))
  {
    hide LinkOk, StageOk, GroupsOk, Proper, CommandStage, GoesOn;
    assert GroupOk(p, g, st.now[g]) by { NowGoesOn(p, st, g, 0); GoesOnGroup(p, g, st.now[g], 0); }
    var st' := Applied(p, st, g, cmd);
    forall s | 0 <= s < p.n ensures Proper(p, st.now, g, st'.now[g], s) {
      NowGoesOn(p, st, g, s);
      PendingStage(p, st, g, cmd, s);
      ProperInPlace(p, st, g, cmd, s);
    }
    MovedStages(p, st, st', g, st'.now[g]);
  }

  lemma ProperInPlace(p: Setup, st: State, g: nat, cmd: Command, s: nat)
    requires p.WellFormed() && Shaped(p, st) && 0 < g < p.groups && s < p.n && !cmd.AddConfig? && !cmd.DeleteShard?
    requires GoesOn(p, g, st.now[g], st.now[g], s) && CommandStage(p, st.now, g, cmd, s)
    ensures Proper(p, st.now, g, Applied(p, st, g, cmd).now[g], s)
  {
    hide Proper, CommandStage, ApplyClient, ProcessInsertShard, ProcessAdjust, GetPutAppend;
    match cmd
    case ClientOp(req) => ProperClient(p, st, g, req, s);
    case InsertShard(num, data, last) => ProperInsert(p, st.now, g, num, data, last, s);
    case AdjustShardState(ids, num) => ProperAdjust(p, st.now, g, ids, num, s);
  }

  lemma ProperClient(p: Setup, st: State, g: nat, req: Request, s: nat)
    requires p.WellFormed() && Shaped(p, st) && 0 < g < p.groups && s < p.n && GoesOn(p, g, st.now[g], st.now[g], s)
    ensures ApplyClient(p, st, g, req).now[g] == GetPutAppend(st.now[g], g, req).0
    ensures Proper(p, st.now, g, GetPutAppend(st.now[g], g, req).0, s)
  {
  }

  lemma ProperInsert(p: Setup, now: seq<Group>, g: nat, num: nat, data: map<nat, map<string, string>>, last: map<nat, nat>, s: nat)
    requires p.WellFormed() && g < |now| && s < p.n && GoesOn(p, g, now[g], now[g], s)
    requires CommandStage(p, now, g, InsertShard(num, data, last), s)
    ensures Proper(p, now, g, ProcessInsertShard(now[g], num, data, last), s)
  {
    hide MergeLast;
  }

  lemma ProperAdjust(p: Setup, now: seq<Group>, g: nat, ids: set<nat>, num: nat, s: nat)
    requires p.WellFormed() && g < |now| && s < p.n && GoesOn(p, g, now[g], now[g], s)
    requires CommandStage(p, now, g, AdjustShardState(ids, num), s)
    ensures Proper(p, now, g, ProcessAdjust(now[g], ids, num), s)
  {
  }

  lemma DeleteMoved(p: Setup, st: State, g: nat, ids: set<nat>, num: nat, caller: nat)
    requires p.WellFormed() && Stages(p, st) && 0 < g < p.groups && DeleteShard(ids, num, caller) in st.pending[g]
    ensures |st.now[g].shards| == |st.now[g].current.shards| == p.n
    ensures Stages(p, MoveTo(st, g, ProcessDeleteShard(st.now[g], ids, num)))
  {
    hide LinkOk, StageOk, GroupsOk;
    var x' := ProcessDeleteShard(st.now[g], ids, num);
    assert GroupOk(p, g, st.now[g]) by { NowGoesOn(p, st, g, 0); }
    forall s | 0 <= s < p.n ensures Proper(p, st.now, g, x', s) {
      NowGoesOn(p, st, g, s);
      PendingStage(p, st, g, DeleteShard(ids, num, caller), s);
    }
    MovedStages(p, st, MoveTo(st, g, x'), g, x');
  }

  lemma ApplyDeleteStages(p: Setup, st: State, g: nat, ids: set<nat>, num: nat, caller: nat)
    requires p.WellFormed() && Stages(p, st) && 0 < g < p.groups && DeleteShard(ids, num, caller) in st.pending[g]
    ensures |st.now[g].shards| == |st.now[g].current.shards| == p.n
    ensures Stages(p, Applied(p, st, g, DeleteShard(ids, num, caller)))
  {
    hide LinkOk, StageOk;
    var x, cmd := st.now[g], AdjustShardState(ids, num);
    DeleteMoved(p, st, g, ids, num, caller);
    var st1 := MoveTo(st, g, ProcessDeleteShard(x, ids, num));
    if AnswerTo(x, num) == OK {
      forall s | 0 <= s < p.n ensures CommandStage(p, st1.now, caller, cmd, s) {
        PendingStage(p, st1, g, DeleteShard(ids, num, caller), s);
        if s in ids {
          LetGo(p, st, g, ids, num, s, caller);
        }
      }
      ProposeStages(p, st1, caller, cmd);
    }
  }

  // After the delete the old owner holds the shard no more.
  lemma LetGo(p: Setup, st: State, g: nat, ids: set<nat>, num: nat, s: nat, caller: nat)
    requires p.WellFormed() && Stages(p, st) && 0 < g < p.groups && s in ids && s < p.n && num <= st.now[g].current.num
    requires Moved(p, num, s) && p.Owner(num - 1, s) == g && DeleteShard(ids, num, caller) in st.pending[g]
    ensures Released(p, st.now[g := ProcessDeleteShard(st.now[g], ids, num)], num, s)
  {
  }

  /** Every enabled step can be taken and keeps this, for any sequence of configurations. */
  lemma StepStages(p: Setup, st: State, e: Event)
    requires p.WellFormed() && Stages(p, st) && Enabled(p, st, e)
    ensures Sized(p, st, e) && Stages(p, Exec(p, st, e))
  {
    hide StageOk, GroupsOk;
    match e
    case Issue(req) => SameStages(p, st, Exec(p, st, e));
    case Submit(g, req) => ProposeStages(p, st, g, ClientOp(req));
    case Recognise(g, x, req) => SameStages(p, st, Exec(p, st, e));
    case ProposeConfig(g, x) => ProposeConfigStages(p, st, g, x);
    case Pull(g, x, from, y) => PullStages(p, st, g, x, from, y);
    case AskDelete(g, x, from) => AskDeleteStages(p, st, g, x, from);
    case Apply(g, cmd) =>
      match cmd
      case AddConfig(c) => ApplyConfigStages(p, st, g, c);
      case DeleteShard(ids, num, caller) => ApplyDeleteStages(p, st, g, ids, num, caller);
      case _ => ApplyInPlace(p, st, g, cmd);
  }

  lemma SameStages(p: Setup, st: State, st': State)
    requires p.WellFormed() && Stages(p, st) && Shaped(p, st')
    requires st'.now == st.now && st'.past == st.past && st'.pending == st.pending
    ensures Stages(p, st')
  {
    forall s | 0 <= s < p.n ensures StageOk(p, st', s) {
      assert StageOk(p, st, s);
    }
  }

  lemma {:induction false} RunStages(p: Setup, trace: seq<State>, events: seq<Event>, i: nat)
    requires p.WellFormed() && Run(p, trace, events) && i < |trace|
    ensures Stages(p, trace[i])
  {
    hide Stages, Exec, Init;
    if i == 0 {
      InitStages(p);
    } else {
      RunStages(p, trace, events, i - 1);
      assert Step(p, trace[i - 1], events[i - 1], trace[i - 1 + 1]);
      StepStages(p, trace[i - 1], events[i - 1]);
    }
  }

  /** A run never stops for a malformed command: every enabled step can be taken. */
  lemma NeverMalformed(p: Setup, trace: seq<State>, events: seq<Event>, i: nat, e: Event)
    requires p.WellFormed() && Run(p, trace, events) && i < |trace|
    ensures Shaped(p, trace[i]) && (Enabled(p, trace[i], e) ==> Sized(p, trace[i], e))
  {
    hide StageOk, GroupsOk;
    RunStages(p, trace, events, i);
    if Enabled(p, trace[i], e) {
      StepStages(p, trace[i], e);
    }
  }

  /** What the monitors check before they propose still holds when the command is applied. */
  lemma ChecksSurvive(p: Setup, trace: seq<State>, events: seq<Event>, i: nat)
    requires p.WellFormed() && Run(p, trace, events) && i < |events| && events[i].Apply?
    ensures 0 < events[i].g < |trace[i].now|
    ensures events[i].cmd.AddConfig? && events[i].cmd.config.num == trace[i].now[events[i].g].current.num + 1 ==>
      AllServing(trace[i].now[events[i].g])
    ensures events[i].cmd.AdjustShardState? && events[i].cmd.num == trace[i].now[events[i].g].current.num ==>
      forall s :: s in events[i].cmd.ids && s < |trace[i].now[events[i].g].shards| ==>
        trace[i].now[events[i].g].shards[s].state in {Serving, GCing}
  {
    hide StageOk;
    RunStages(p, trace, events, i);
    var st, g, cmd := trace[i], events[i].g, events[i].cmd;
    assert Step(p, trace[i], events[i], trace[i + 1]);
    assert GroupOk(p, g, st.now[g]);
    forall s: nat | s < p.n
      ensures cmd.AddConfig? && cmd.config.num == st.now[g].current.num + 1 ==> st.now[g].shards[s].state == Serving
      ensures cmd.AdjustShardState? && cmd.num == st.now[g].current.num && s in cmd.ids ==>
        st.now[g].shards[s].state in {Serving, GCing}
    {
      PendingStage(p, st, g, cmd, s);
    }
  }
}
