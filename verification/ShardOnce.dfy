/** For which sequences of configurations no request is ever executed twice: exactly those in which the table of a shard's
    earlier owner always reaches the later one before it serves. */
module ShardOnce {
  import opened Basics
  import opened Requests
  import opened ShardGroup
  import opened ShardProtocol
  import opened ShardInvariant
  import opened ShardStages
  import opened ShardProgress
  import opened ShardForced
  import opened ShardSchedule
  import Exact = ShardExact
  import Safety = ShardSafety
  import Single = ShardSingle
  import Linear = ShardLinear

  // ---------------------------------------------------------------- how tables spread

  // When group `h` enters configuration `c`, its table has all that group `a` executed in `m`.
  ghost predicate Informed(p: Setup, a: nat, m: nat, h: nat, c: nat)
    requires p.WellFormed()
    decreases c
  {
    if h == a then m < c else exists c': nat, g: nat :: c' < c && Gives(p, g, h, c') && Informed(p, a, m, g, c')
  }

  // When group `h` serves the shard in configuration `c`, its table has all that group `a` executed in `m`.
  ghost predicate ServingInformed(p: Setup, a: nat, m: nat, h: nat, c: nat, s: nat)
    requires p.WellFormed()
  {
    Informed(p, a, m, h, c) || (Moved(p, c, s) && Informed(p, a, m, p.Owner(c - 1, s), c))
  }

  ghost predicate Told(p: Setup)
    requires p.WellFormed()
  {
    forall s: nat, m: nat, m': nat :: Changes(p, s, m, m') ==> ServingInformed(p, p.Owner(m, s), m, p.Owner(m', s), m', s)
  }

  lemma {:induction false} InformedForces(p: Setup, a: nat, m: nat, h: nat, c: nat)
    requires p.WellFormed() && Informed(p, a, m, h, c)
    ensures m < c && Forces(p, h, c, a, m + 1)
    decreases c
  {
    if h != a {
      var c': nat, g: nat :| c' < c && Gives(p, g, h, c') && Informed(p, a, m, g, c');
      InformedForces(p, a, m, g, c');
      assert Linked(p, h, g, c');
    }
  }

  lemma ServingInformedForces(p: Setup, a: nat, m: nat, h: nat, c: nat, s: nat)
    requires p.WellFormed() && ServingInformed(p, a, m, h, c, s)
    ensures ServingForces(p, h, c, s, a, m + 1)
  {
    if Informed(p, a, m, h, c) {
      InformedForces(p, a, m, h, c);
    } else {
      InformedForces(p, a, m, p.Owner(c - 1, s), c);
    }
  }

  // ---------------------------------------------------------------- tables in runs

  ghost predicate Listed(last: map<nat, nat>, w: Request) {
    IsInvalidRequest(last, w.client, w.id)
  }

  // The group has installed the shard that it got in its configuration.
  ghost predicate Holds(p: Setup, h: nat, x: Group, s: nat)
    requires p.WellFormed()
  {
    s < p.n && s < |x.shards| && Moved(p, x.current.num, s) && p.Owner(x.current.num, s) == h && x.shards[s].state in {GCing, Serving}
  }

  ghost predicate StateKnows(p: Setup, a: nat, m: nat, w: Request, h: nat, x: Group)
    requires p.WellFormed()
  {
    && (Informed(p, a, m, h, x.current.num) ==> Listed(x.lastRequest, w))
    && (forall s: nat :: Holds(p, h, x, s) && Informed(p, a, m, p.Owner(x.current.num - 1, s), x.current.num) ==> Listed(x.lastRequest, w))
  }

  ghost predicate CommandKnows(p: Setup, a: nat, m: nat, w: Request, cmd: Command)
    requires p.WellFormed()
  {
    cmd.InsertShard? ==>
      forall s: nat :: s in cmd.data && s < p.n && Moved(p, cmd.num, s) && Informed(p, a, m, p.Owner(cmd.num - 1, s), cmd.num) ==>
        Listed(cmd.lastRequest, w)
  }

  // Group `a` has executed `w` in configuration `m`.
  ghost predicate TablesKnow(p: Setup, st: State, a: nat, m: nat, w: Request)
    requires p.WellFormed()
  {
    && Stages(p, st) && 0 < a < p.groups && Listed(st.now[a].lastRequest, w)
    && (forall h, x :: 0 < h < p.groups && x in st.past[h] ==> StateKnows(p, a, m, w, h, x))
    && (forall h, cmd :: 0 < h < p.groups && cmd in st.pending[h] ==> CommandKnows(p, a, m, w, cmd))
  }

  // Nobody can be informed while the group is still in the configuration.
  lemma NobodyYet(p: Setup, st: State, a: nat, m: nat, h: nat, c: nat)
    requires p.WellFormed() && Stages(p, st) && 0 < a < p.groups && st.now[a].current.num <= m
    requires 0 < h < p.groups && c <= st.now[h].current.num
    ensures !Informed(p, a, m, h, c)
  {
    hide StageOk;
    if Informed(p, a, m, h, c) {
      InformedForces(p, a, m, h, c);
      ForcedThere(p, st, h, c, a, m + 1);
    }
  }

  lemma HeldGiver(p: Setup, st: State, h: nat, x: Group, s: nat)
    requires p.WellFormed() && Stages(p, st) && 0 < h < p.groups && x in st.past[h] && Holds(p, h, x, s)
    ensures 0 < p.Owner(x.current.num - 1, s) < p.groups
    ensures x.current.num <= st.now[p.Owner(x.current.num - 1, s)].current.num
  {
    hide CommandStage;
    assert StageOk(p, st, s) && GoesOn(p, h, x, st.now[h], s);
    assert LinkOk(p, st.now, x.current.num, s);
    assert GroupOk(p, h, st.now[h]);
  }

  lemma JustExecuted(p: Setup, st: State, a: nat, m: nat, w: Request)
    requires p.WellFormed() && Stages(p, st) && 0 < a < p.groups && st.now[a].current.num == m && Listed(st.now[a].lastRequest, w)
    ensures TablesKnow(p, st, a, m, w)
  {
    hide StageOk, Informed, Holds;
    forall h, x | 0 < h < p.groups && x in st.past[h] ensures StateKnows(p, a, m, w, h, x) {
      PastBefore(p, st, h, x);
      NobodyYet(p, st, a, m, h, x.current.num);
      forall s: nat | Holds(p, h, x, s) ensures x.current.num > 0 && !Informed(p, a, m, p.Owner(x.current.num - 1, s), x.current.num) {
        HoldsMoved(p, h, x, s);
        HeldGiver(p, st, h, x, s);
        NobodyYet(p, st, a, m, p.Owner(x.current.num - 1, s), x.current.num);
      }
    }
    forall h, cmd | 0 < h < p.groups && cmd in st.pending[h] ensures CommandKnows(p, a, m, w, cmd) {
      if cmd.InsertShard? {
        forall s: nat | s in cmd.data && s < p.n && Moved(p, cmd.num, s)
          ensures !Informed(p, a, m, p.Owner(cmd.num - 1, s), cmd.num)
        {
          PendingStage(p, st, h, cmd, s);
          NobodyYet(p, st, a, m, p.Owner(cmd.num - 1, s), cmd.num);
        }
      }
    }
  }

  lemma HoldsMoved(p: Setup, h: nat, x: Group, s: nat)
    requires p.WellFormed() && Holds(p, h, x, s)
    ensures x.current.num > 0
  {
  }

  lemma PastBefore(p: Setup, st: State, h: nat, x: Group)
    requires p.WellFormed() && Stages(p, st) && 0 < h < p.groups && x in st.past[h]
    ensures x.current.num <= st.now[h].current.num
  {
    assert StageOk(p, st, 0) && GoesOn(p, h, x, st.now[h], 0);
  }

  // ---------------------------------------------------------------- every step keeps the tables

  lemma MergeLists(last: map<nat, nat>, other: map<nat, nat>, w: Request)
    requires Listed(last, w) || Listed(other, w)
    ensures Listed(MergeLast(last, other), w)
  {
  }

  // A state in the same configuration, with at least the same table and no shard newly installed.
  lemma SameKnows(p: Setup, a: nat, m: nat, w: Request, h: nat, x: Group, x': Group)
    requires p.WellFormed() && StateKnows(p, a, m, w, h, x) && x'.current == x.current
    requires Listed(x.lastRequest, w) ==> Listed(x'.lastRequest, w)
    requires forall s: nat :: Holds(p, h, x', s) ==> Holds(p, h, x, s)
    ensures StateKnows(p, a, m, w, h, x')
  {
    hide Holds, Informed, Listed;
  }

  lemma ClientKnows(p: Setup, a: nat, m: nat, w: Request, g: nat, x: Group, req: Request)
    requires p.WellFormed() && GroupOk(p, g, x) && StateKnows(p, a, m, w, g, x)
    ensures StateKnows(p, a, m, w, g, GetPutAppend(x, g, req).0)
    ensures Listed(x.lastRequest, w) ==> Listed(GetPutAppend(x, g, req).0.lastRequest, w)
  {
    hide Informed, StateKnows;
    SameKnows(p, a, m, w, g, x, GetPutAppend(x, g, req).0);
  }

  lemma InsertKnows(p: Setup, a: nat, m: nat, w: Request, g: nat, x: Group, cmd: Command)
    requires p.WellFormed() && GroupOk(p, g, x) && StateKnows(p, a, m, w, g, x)
    requires cmd.InsertShard? && CommandKnows(p, a, m, w, cmd)
    ensures StateKnows(p, a, m, w, g, ProcessInsertShard(x, cmd.num, cmd.data, cmd.lastRequest))
    ensures Listed(x.lastRequest, w) ==> Listed(ProcessInsertShard(x, cmd.num, cmd.data, cmd.lastRequest).lastRequest, w)
  {
    hide Informed, MergeLast, Listed;
    var x' := ProcessInsertShard(x, cmd.num, cmd.data, cmd.lastRequest);
    if cmd.num == x.current.num {
      if Listed(x.lastRequest, w) || Listed(cmd.lastRequest, w) {
        MergeLists(x.lastRequest, cmd.lastRequest, w);
      }
      forall s: nat | Holds(p, g, x', s) && Informed(p, a, m, p.Owner(x'.current.num - 1, s), x'.current.num)
        ensures Listed(x'.lastRequest, w)
      {
        assert Holds(p, g, x, s) || s in cmd.data;
      }
    }
  }

  // Where the group waited for a shard in its last configuration, it has the giver's table.
  lemma EnterKnows(p: Setup, st: State, a: nat, m: nat, w: Request, g: nat, c: Config)
    requires p.WellFormed() && TablesKnow(p, st, a, m, w) && 0 < g < p.groups && AddConfig(c) in st.pending[g]
    ensures |st.now[g].shards| == |st.now[g].current.shards| == |c.shards|
    ensures StateKnows(p, a, m, w, g, ProcessAddConfig(st.now[g], g, c))
  {
    hide StageOk, Informed, Listed, LinkOk;
    var x := st.now[g];
    assert GroupOk(p, g, x) && StateKnows(p, a, m, w, g, x);
    var x' := ProcessAddConfig(x, g, c);
    if c.num == x.current.num + 1 {
      if Informed(p, a, m, g, c.num) {
        InformedBefore(p, st, a, m, w, g, c);
      }
      forall s: nat | Holds(p, g, x', s) ensures false {
        PendingStage(p, st, g, AddConfig(c), s);
      }
    }
  }

  lemma InformedBefore(p: Setup, st: State, a: nat, m: nat, w: Request, g: nat, c: Config)
    requires p.WellFormed() && TablesKnow(p, st, a, m, w) && 0 < g < p.groups && AddConfig(c) in st.pending[g]
    requires c.num == st.now[g].current.num + 1 && Informed(p, a, m, g, c.num)
    ensures Listed(st.now[g].lastRequest, w)
  {
    hide StageOk, Listed, LinkOk;
    var x := st.now[g];
    assert GroupOk(p, g, x) && StateKnows(p, a, m, w, g, x);
    if g != a {
      var c': nat, h: nat :| c' < c.num && Gives(p, h, g, c') && Informed(p, a, m, h, c');
      if c' < x.current.num {
        assert Informed(p, a, m, g, x.current.num);
      } else {
        var s: nat :| s < p.n && Moved(p, c', s) && p.Owner(c' - 1, s) == h && p.Owner(c', s) == g;
        PendingStage(p, st, g, AddConfig(c), s);
        assert Holds(p, g, x, s);
      }
    }
  }

  lemma PullKnows(p: Setup, st: State, a: nat, m: nat, w: Request, g: nat, x: Group, from: nat, y: Group)
    requires p.WellFormed() && TablesKnow(p, st, a, m, w) && Enabled(p, st, Pull(g, x, from, y))
    ensures CommandKnows(p, a, m, w, Pulled(x, from, y))
  {
    hide Informed, Listed, LinkOk, CommandStage;
    assert StateKnows(p, a, m, w, from, y);
    var cmd := Pulled(x, from, y);
    forall s: nat | s in cmd.data && s < p.n && Moved(p, cmd.num, s) && Informed(p, a, m, p.Owner(cmd.num - 1, s), cmd.num)
      ensures Listed(cmd.lastRequest, w)
    {
      assert StageOk(p, st, s) && GoesOn(p, g, x, st.now[g], s);
    }
  }

  lemma ApplyKnows(p: Setup, st: State, a: nat, m: nat, w: Request, g: nat, cmd: Command)
    requires p.WellFormed() && TablesKnow(p, st, a, m, w) && Enabled(p, st, Apply(g, cmd)) && Sized(p, st, Apply(g, cmd))
    ensures
      var st' := Applied(p, st, g, cmd);
      && Shaped(p, st') && st'.now == st.now[g := st'.now[g]] && StateKnows(p, a, m, w, g, st'.now[g])
      && (Listed(st.now[g].lastRequest, w) ==> Listed(st'.now[g].lastRequest, w))
  {
    hide StageOk, Informed, Listed, StateKnows, CommandKnows, MergeLast, GetPutAppend;
    var x := st.now[g];
    assert GroupOk(p, g, x) && StateKnows(p, a, m, w, g, x) && CommandKnows(p, a, m, w, cmd);
    match cmd
    case ClientOp(req) => ClientKnows(p, a, m, w, g, x, req);
    case AddConfig(c) => EnterKnows(p, st, a, m, w, g, c);
    case InsertShard(num, data, last) => InsertKnows(p, a, m, w, g, x, cmd);
    case DeleteShard(ids, num, caller) => DeleteHolds(p, st, g, ids, num); SameKnows(p, a, m, w, g, x, ProcessDeleteShard(x, ids, num));
    case AdjustShardState(ids, num) => AdjustHolds(p, st, g, ids, num); SameKnows(p, a, m, w, g, x, ProcessAdjust(x, ids, num));
  }

  lemma DeleteHolds(p: Setup, st: State, g: nat, ids: set<nat>, num: nat)
    requires p.WellFormed() && Stages(p, st) && 0 < g < p.groups
    ensures forall s: nat :: Holds(p, g, ProcessDeleteShard(st.now[g], ids, num), s) ==> Holds(p, g, st.now[g], s)
  {
    hide StageOk;
    forall s: nat | Holds(p, g, ProcessDeleteShard(st.now[g], ids, num), s) ensures Holds(p, g, st.now[g], s) {
      NowGoesOn(p, st, g, s);
    }
  }

  lemma AdjustHolds(p: Setup, st: State, g: nat, ids: set<nat>, num: nat)
    requires p.WellFormed() && Stages(p, st) && 0 < g < p.groups && AdjustShardState(ids, num) in st.pending[g]
    ensures forall s: nat :: Holds(p, g, ProcessAdjust(st.now[g], ids, num), s) ==> Holds(p, g, st.now[g], s)
  {
    hide StageOk, LinkOk;
    forall s: nat | Holds(p, g, ProcessAdjust(st.now[g], ids, num), s) ensures Holds(p, g, st.now[g], s) {
      PendingStage(p, st, g, AdjustShardState(ids, num), s);
      NowGoesOn(p, st, g, s);
    }
  }

  lemma StepKnows(p: Setup, st: State, e: Event, a: nat, m: nat, w: Request)
    requires p.WellFormed() && TablesKnow(p, st, a, m, w) && Enabled(p, st, e)
    ensures Sized(p, st, e) && TablesKnow(p, Exec(p, st, e), a, m, w)
  {
    hide StageOk, StateKnows, CommandKnows, Listed, GroupsOk;
    StepStages(p, st, e);
    var st' := Exec(p, st, e);
    if e.Apply? {
      ApplyKnows(p, st, a, m, w, e.g, e.cmd);
      AppliedPast(p, st, e.g, e.cmd);
      AppliedPending(p, st, a, m, w, e.g, e.cmd);
    } else if e.Pull? {
      PullKnows(p, st, a, m, w, e.g, e.x, e.from, e.y);
    } else {
      forall h, cmd | 0 < h < p.groups && cmd in st'.pending[h] ensures CommandKnows(p, a, m, w, cmd) {
        if cmd !in st.pending[h] {
          assert !cmd.InsertShard?;
          NotInserts(p, a, m, w, cmd);
        }
      }
    }
  }

  lemma NotInserts(p: Setup, a: nat, m: nat, w: Request, cmd: Command)
    requires p.WellFormed() && !cmd.InsertShard?
    ensures CommandKnows(p, a, m, w, cmd)
  {
  }

  lemma AppliedPast(p: Setup, st: State, g: nat, cmd: Command)
    requires p.WellFormed() && Shaped(p, st) && Enabled(p, st, Apply(g, cmd)) && Sized(p, st, Apply(g, cmd))
    ensures
      var st' := Applied(p, st, g, cmd);
      Shaped(p, st') && st'.past == st.past[g := st.past[g] + {st'.now[g]}]
  {
  }

  lemma AppliedPending(p: Setup, st: State, a: nat, m: nat, w: Request, g: nat, cmd: Command)
    requires p.WellFormed() && Shaped(p, st) && Enabled(p, st, Apply(g, cmd)) && Sized(p, st, Apply(g, cmd))
    requires forall h, c :: 0 < h < p.groups && c in st.pending[h] ==> CommandKnows(p, a, m, w, c)
    ensures Shaped(p, Applied(p, st, g, cmd))
    ensures forall h, c :: 0 < h < p.groups && c in Applied(p, st, g, cmd).pending[h] ==> CommandKnows(p, a, m, w, c)
  {
    hide CommandKnows;
    var st' := Applied(p, st, g, cmd);
    forall h, c | 0 < h < p.groups && c in st'.pending[h] ensures CommandKnows(p, a, m, w, c) {
      if c !in st.pending[h] {
        NotInserts(p, a, m, w, c);
      }
    }
  }

  lemma {:induction false} StillKnow(p: Setup, trace: seq<State>, events: seq<Event>, i: nat, j: nat, a: nat, m: nat, w: Request)
    requires p.WellFormed() && Run(p, trace, events) && i <= j < |trace| && TablesKnow(p, trace[i], a, m, w)
    ensures TablesKnow(p, trace[j], a, m, w)
    decreases j
  {
    hide TablesKnow, Exec;
    if i < j {
      StillKnow(p, trace, events, i, j - 1, a, m, w);
      assert Step(p, trace[j - 1], events[j - 1], trace[j - 1 + 1]);
      StepKnows(p, trace[j - 1], events[j - 1], a, m, w);
    }
  }
  // ---------------------------------------------------------------- each request once

  // Over all shards, no client's number occurs twice among the writes that changed data.
  ghost predicate Once(st: State) {
    forall s: nat, j: nat, s': nat, j': nat :: Repeated(st, s, j, s', j') ==> s == s' && j == j'
  }

  ghost predicate Repeated(st: State, s: nat, j: nat, s': nat, j': nat) {
    && s < |st.accepted| && j < |st.accepted[s]| && s' < |st.accepted| && j' < |st.accepted[s']|
    && st.accepted[s][j].client == st.accepted[s'][j'].client && st.accepted[s][j].id == st.accepted[s'][j'].id
  }

  ghost predicate RequestsKnown(p: Setup, st: State)
    requires p.WellFormed()
  {
    && Shaped(p, st)
    && (forall g, cmd :: 0 <= g < p.groups && cmd in st.pending[g] && cmd.ClientOp? ==> Known(st.issued, cmd.req))
    && (forall s, j :: 0 <= s < p.n && 0 <= j < |st.accepted[s]| ==>
          Known(st.issued, st.accepted[s][j]) && IsWriteOn(p, st.accepted[s][j], s))
  }

  lemma IssueKnown(p: Setup, st: State, req: Request)
    requires p.WellFormed() && RequestsKnown(p, st)
    ensures RequestsKnown(p, st.(issued := st.issued[req.client := (if req.client in st.issued then st.issued[req.client] else []) + [req]]))
  {
  }

  lemma StepRequests(p: Setup, st: State, e: Event)
    requires p.WellFormed() && RequestsKnown(p, st) && Enabled(p, st, e) && Sized(p, st, e)
    ensures RequestsKnown(p, Exec(p, st, e))
  {
    assert Shaped(p, st);
    hide RequestsKnown, Applied, Copies, WithState;
    match e
    case Issue(req) => IssueKnown(p, st, req);
    case Submit(g, req) => ProposeKnown(p, st, g, ClientOp(req));
    case Recognise(g, x, req) => SameKnown(p, st, Exec(p, st, e));
    case ProposeConfig(g, x) => ProposeKnown(p, st, g, AddConfig(p.configs[x.current.num + 1]));
    case Pull(g, x, from, y) => ProposeKnown(p, st, g, Pulled(x, from, y));
    case AskDelete(g, x, from) => ProposeKnown(p, st, from, DeleteShard(WithState(x, GCing, from), x.current.num, g));
    case Apply(g, cmd) => ApplyKnown(p, st, g, cmd);
  }

  lemma ProposeKnown(p: Setup, st: State, g: nat, cmd: Command)
    requires p.WellFormed() && RequestsKnown(p, st) && g < p.groups && (cmd.ClientOp? ==> Known(st.issued, cmd.req))
    ensures RequestsKnown(p, Propose(st, g, cmd))
  {
  }

  lemma SameKnown(p: Setup, st: State, st': State)
    requires p.WellFormed() && RequestsKnown(p, st) && Shaped(p, st')
    requires st'.issued == st.issued && st'.accepted == st.accepted && st'.pending == st.pending
    ensures RequestsKnown(p, st')
  {
  }

  lemma ApplyKnown(p: Setup, st: State, g: nat, cmd: Command)
    requires p.WellFormed() && RequestsKnown(p, st) && Enabled(p, st, Apply(g, cmd)) && Sized(p, st, Apply(g, cmd))
    ensures RequestsKnown(p, Applied(p, st, g, cmd))
  {
    hide GetPutAppend, ProcessAddConfig, ProcessInsertShard, ProcessDeleteShard, ProcessAdjust;
    if !cmd.ClientOp? && !cmd.DeleteShard? {
      SameKnown(p, st, Applied(p, st, g, cmd));
    }
  }

  lemma {:induction false} RunRequests(p: Setup, trace: seq<State>, events: seq<Event>, i: nat)
    requires p.WellFormed() && Run(p, trace, events) && i < |trace|
    ensures RequestsKnown(p, trace[i])
  {
    hide Exec, Enabled, Sized;
    if i > 0 {
      RunRequests(p, trace, events, i - 1);
      assert Step(p, trace[i - 1], events[i - 1], trace[i - 1 + 1]);
      StepRequests(p, trace[i - 1], events[i - 1]);
    }
  }

  // When and where the write at this place was executed.
  lemma {:induction false} WrittenAt(p: Setup, trace: seq<State>, events: seq<Event>, i: nat, s: nat, j: nat) returns (k: nat)
    requires p.WellFormed() && Run(p, trace, events) && i < |trace| && s < |trace[i].accepted| && j < |trace[i].accepted[s]|
    ensures k < i && s < p.n == |trace[k].accepted| && |trace[k].accepted[s]| == j
    ensures Linear.ExecutesIn(p, trace[k], events[k], trace[i].accepted[s][j])
  {
    hide Step, Linear.ExecutesIn, Init, Stages;
    RunStages(p, trace, events, i);
    assert Shaped(p, trace[i]) by { StagesShaped(p, trace[i]); }
    if i == 0 {
      assert false by { Linear.NothingAccepted(p, s); }
    } else {
      RunStages(p, trace, events, i - 1);
      StagesShaped(p, trace[i - 1]);
      Linear.RunStep(p, trace, events, i - 1);
      Linear.AcceptedStep(p, trace[i - 1], events[i - 1], trace[i], s);
      if j < |trace[i - 1].accepted[s]| {
        k := WrittenAt(p, trace, events, i - 1, s, j);
        assert trace[i].accepted[s][j] == trace[i - 1].accepted[s][j] by {
          if trace[i].accepted[s] != trace[i - 1].accepted[s] {
            var r :| Linear.ExecutesIn(p, trace[i - 1], events[i - 1], r) && IsWriteOn(p, r, s);
          }
        }
      } else {
        var r :| Linear.ExecutesIn(p, trace[i - 1], events[i - 1], r) && IsWriteOn(p, r, s);
        k := i - 1;
      }
    }
  }

  lemma StagesShaped(p: Setup, st: State)
    requires p.WellFormed() && Stages(p, st)
    ensures Shaped(p, st)
  {
  }

  lemma {:induction false} NumsGrow(p: Setup, trace: seq<State>, events: seq<Event>, i: nat, j: nat, g: nat)
    requires p.WellFormed() && Run(p, trace, events) && i <= j < |trace| && 0 < g < p.groups
    ensures Shaped(p, trace[i]) && Shaped(p, trace[j]) && trace[i].now[g].current.num <= trace[j].now[g].current.num
    decreases j
  {
    hide Stages, Exec, Enabled;
    RunStages(p, trace, events, j);
    StagesShaped(p, trace[j]);
    if i < j {
      NumsGrow(p, trace, events, i, j - 1, g);
      assert Step(p, trace[j - 1], events[j - 1], trace[j - 1 + 1]);
      RunStages(p, trace, events, j - 1);
      StayInPast(p, trace[j - 1], events[j - 1], g);
      PastBefore(p, trace[j], g, trace[j - 1].now[g]);
    }
  }

  lemma StayInPast(p: Setup, st: State, e: Event, g: nat)
    requires p.WellFormed() && Stages(p, st) && Enabled(p, st, e) && Sized(p, st, e) && 0 < g < p.groups
    ensures Shaped(p, Exec(p, st, e)) && st.now[g] in Exec(p, st, e).past[g]
  {
    hide StageOk;
    if e.Apply? {
      AppliedPast(p, st, e.g, e.cmd);
    }
  }

  // After an execution the group is where it was, with the request in its table.
  lemma ExecutedTable(p: Setup, st: State, e: Event, st': State, w: Request)
    requires p.WellFormed() && Stages(p, st) && Step(p, st, e, st') && Linear.ExecutesIn(p, st, e, w)
    ensures Stages(p, st') && 0 < e.g < p.groups && st'.now[e.g].current == st.now[e.g].current && Listed(st'.now[e.g].lastRequest, w)
  {
    hide StageOk, GroupsOk;
    StepStages(p, st, e);
  }

  lemma ServingListed(p: Setup, st: State, a: nat, m: nat, w: Request, b: nat, s: nat)
    requires p.WellFormed() && TablesKnow(p, st, a, m, w) && 0 < b < p.groups && s < p.n && Serves(st.now[b], b, s)
    requires b == a || ServingInformed(p, a, m, b, st.now[b].current.num, s)
    ensures Listed(st.now[b].lastRequest, w)
  {
    hide StageOk, Informed, Listed;
    var x := st.now[b];
    assert GroupOk(p, b, x) && StateKnows(p, a, m, w, b, x);
    if b != a && !Informed(p, a, m, b, x.current.num) {
      assert Holds(p, b, x, s);
    }
  }

  lemma NotTwice(p: Setup, trace: seq<State>, events: seq<Event>, k: nat, k': nat, w: Request)
    requires p.WellFormed() && Told(p) && Run(p, trace, events) && k < k' < |events| && !w.kind.Get?
    requires Linear.ExecutesIn(p, trace[k], events[k], w)
    ensures !Linear.ExecutesIn(p, trace[k'], events[k'], w)
  {
    hide Step, Stages, TablesKnow, ServingInformed, ServingForces, Exec;
    if Linear.ExecutesIn(p, trace[k'], events[k'], w) {
      var s, a, b := KeyToShard(w.key, p.n), events[k].g, events[k'].g;
      var m, m' := trace[k].now[a].current.num, trace[k'].now[b].current.num;
      RunStages(p, trace, events, k);
      RunStages(p, trace, events, k');
      Linear.RunStep(p, trace, events, k);
      StagesShaped(p, trace[k]);
      StagesShaped(p, trace[k']);
      ServerOwns(p, trace[k], a, s);
      ServerOwns(p, trace[k'], b, s);
      ExecutedTable(p, trace[k], events[k], trace[k + 1], w);
      JustExecuted(p, trace[k + 1], a, m, w);
      StillKnow(p, trace, events, k + 1, k', a, m, w);
      NumsGrow(p, trace, events, k, k', b);
      if a == b || m < m' {
        assert a != b ==> Changes(p, s, m, m');
        ServingListed(p, trace[k'], a, m, w, b, s);
      } else {
        assert Changes(p, s, m', m);
        ServingInformedForces(p, b, m', a, m, s);
        ServingThere(p, trace[k], a, s, b, m' + 1);
      }
    }
  }

  lemma ServerOwns(p: Setup, st: State, g: nat, s: nat)
    requires p.WellFormed() && Stages(p, st) && 0 < g < p.groups && Serves(st.now[g], g, s)
    ensures s < p.n && p.Owner(st.now[g].current.num, s) == g
  {
    hide StageOk;
    assert GroupOk(p, g, st.now[g]);
  }

  lemma ToldOnce(p: Setup, trace: seq<State>, events: seq<Event>)
    requires p.WellFormed() && Told(p) && Run(p, trace, events)
    ensures Once(trace[|events|])
  {
    hide Step, Init, Told, Linear.ExecutesIn;
    var st, i := trace[|events|], |events|;
    RunRequests(p, trace, events, i);
    forall s: nat, j: nat, s': nat, j': nat | Repeated(st, s, j, s', j') ensures s == s' && j == j' {
      assert st.accepted[s][j] == st.accepted[s'][j'];
      var k := WrittenAt(p, trace, events, i, s, j);
      var k' := WrittenAt(p, trace, events, i, s', j');
      if k < k' {
        NotTwice(p, trace, events, k, k', st.accepted[s][j]);
      } else if k' < k {
        NotTwice(p, trace, events, k', k, st.accepted[s][j]);
      }
    }
  }
  // ---------------------------------------------------------------- a run that executes a write twice

  // Group `g` executes a write of a client that it does not know.
  lemma WriteAt(p: Setup, st: State, g: nat, w: Request) returns (es: seq<Event>, st': State)
    requires p.WellFormed() && Stages(p, st) && 0 < g < p.groups && Known(st.issued, w) && w.kind.Put?
    requires Serves(st.now[g], g, KeyToShard(w.key, p.n)) && w.client !in st.now[g].lastRequest
    ensures Leads(p, st, es, st') && Stages(p, st') && st'.issued == st.issued
    ensures
      var s, x' := KeyToShard(w.key, p.n), st'.now[g];
      && s < |st.accepted| && st'.accepted == st.accepted[s := st.accepted[s] + [w]]
      && st'.now == st.now[g := x'] && st'.past == st.past[g := st.past[g] + {x'}]
      && st'.pending == st.pending[g := st.pending[g] + {ClientOp(w)}]
      && SameProgress(st.now[g], x')
  {
    hide StageOk, Measure, Leads;
    var e, f := Submit(g, w), Apply(g, ClientOp(w));
    assert GroupOk(p, g, st.now[g]);
    var st1 := OneStep(p, st, e);
    assert st1.now == st.now && Executes(st.now[g], g, w);
    st' := OneStep(p, st1, f);
    es := [e] + [f];
    LeadsOn(p, st, [e], st1, [f], st');
  }

  lemma IssueFirst(p: Setup, st: State, w: Request) returns (st': State)
    requires p.WellFormed() && Stages(p, st) && st.issued == map[] && w.id == 0
    ensures Leads(p, st, [Issue(w)], st') && Stages(p, st') && Known(st'.issued, w)
    ensures st'.now == st.now && st'.past == st.past && st'.pending == st.pending && st'.accepted == st.accepted
  {
    hide StageOk, Measure, Leads;
    st' := OneStep(p, st, Issue(w));
  }

  // Everybody gets to `m`, and nobody knows the client.
  ghost function FirstPlan(p: Setup, m: nat): Plan {
    Plan(seq(p.groups, h => m), m + 1, 0, (h, c) => false)
  }

  lemma FirstPlanOk(p: Setup, m: nat)
    requires p.WellFormed() && m < |p.configs|
    ensures CapsOk(p, FirstPlan(p, m)) && Spreads(p, FirstPlan(p, m))
  {
    hide Linked, Gives;
  }

  // The owner of the shard in `m` serves it there, and no table or pull has the client.
  lemma FirstOwnerServes(p: Setup, s: nat, m: nat) returns (es: seq<Event>, st: State)
    requires p.WellFormed() && s < p.n && m < |p.configs| && p.Owner(m, s) != 0
    ensures Leads(p, Init(p), es, st) && Stages(p, st) && SameClients(Init(p), st) && Serves(st.now[p.Owner(m, s)], p.Owner(m, s), s)
    ensures forall g :: 0 < g < p.groups ==> st.now[g].current.num == m && Unknown(st, g, 0)
  {
    hide StageOk, Leads, Careful, Spreads, CapsOk, Init, FirstPlan;
    var t := FirstPlan(p, m);
    FirstPlanOk(p, m);
    Single.InitGuided(p, t);
    var es1, st1 := FollowPlan(p, t, Init(p));
    FirstPlanCaps(p, m);
    var es2, st2 := StartServing(p, t, st1, p.Owner(m, s), s);
    es, st := es1 + es2, st2;
    LeadsOn(p, Init(p), es1, st1, es2, st2);
    forall g | 0 < g < p.groups ensures Unknown(st, g, 0) {
      assert Careful(t, g, st.now[g], st.past[g], st.pending[g]);
      NobodyKnows(p, m, st, g);
    }
  }

  lemma FirstPlanCaps(p: Setup, m: nat)
    ensures |FirstPlan(p, m).caps| == p.groups && (forall g :: 0 <= g < p.groups ==> FirstPlan(p, m).caps[g] == m)
    ensures FirstPlan(p, m).level == m + 1
  {
  }

  // Neither the group's table nor a pull on its way to it has the client.
  ghost predicate Unknown(st: State, g: nat, client: nat)
    requires g < |st.now| && g < |st.pending|
  {
    client !in st.now[g].lastRequest && forall cmd :: cmd in st.pending[g] && cmd.InsertShard? ==> client !in cmd.lastRequest
  }

  lemma NobodyKnows(p: Setup, m: nat, st: State, g: nat)
    requires Shaped(p, st) && g < p.groups && Careful(FirstPlan(p, m), g, st.now[g], st.past[g], st.pending[g])
    ensures Unknown(st, g, 0)
  {
  }

  /** The later owner gets to `m'`, the group it gets the shard from as well, and the others just before; the client's
      entry is known where it cannot be avoided. */
  ghost function SecondPlan(p: Setup, s: nat, m: nat, m': nat): Plan
    requires p.WellFormed() && m' > 0
  {
    Plan(seq(p.groups, h => if h == p.Owner(m', s) || (Moved(p, m', s) && h == p.Owner(m' - 1, s)) then m' else m' - 1), m', 0,
         (h: nat, c: nat) => Informed(p, p.Owner(m, s), m, h, c))
  }

  lemma SecondPlanOk(p: Setup, s: nat, m: nat, m': nat)
    requires p.WellFormed() && Changes(p, s, m, m') && m' < |p.configs|
    ensures CapsOk(p, SecondPlan(p, s, m, m')) && Spreads(p, SecondPlan(p, s, m, m'))
  {
    hide Linked, Gives;
    var t, a := SecondPlan(p, s, m, m'), p.Owner(m, s);
    forall g: nat, c: nat, d: nat | Informed(p, a, m, g, c) && c <= d ensures Informed(p, a, m, g, d) {
    }
    forall g: nat, h: nat, c: nat | Gives(p, g, h, c) && Informed(p, a, m, g, c) ensures Informed(p, a, m, h, c + 1) {
      InformedForces(p, a, m, g, c);
    }
  }

  lemma SecondGuided(p: Setup, s: nat, m: nat, m': nat, st: State, st': State, w: Request)
    requires p.WellFormed() && Changes(p, s, m, m') && m' < |p.configs| && Stages(p, st) && Stages(p, st') && w.client == 0
    requires forall g :: 0 < g < p.groups ==> st.now[g].current.num == m && Unknown(st, g, 0)
    requires
      var a := p.Owner(m, s);
      && 0 < a < p.groups && SameProgress(st.now[a], st'.now[a])
      && st'.now == st.now[a := st'.now[a]] && st'.past == st.past[a := st.past[a] + {st'.now[a]}]
      && st'.pending == st.pending[a := st.pending[a] + {ClientOp(w)}]
    ensures Guided(p, SecondPlan(p, s, m, m'), st')
  {
    hide StageOk, Spreads, Informed, GroupOk;
    var t, a := SecondPlan(p, s, m, m'), p.Owner(m, s);
    SecondPlanOk(p, s, m, m');
    forall g | 0 < g < p.groups ensures Careful(t, g, st'.now[g], st'.past[g], st'.pending[g]) {
      assert st.now[g] in st.past[g];
      assert Clean(t, st'.now[g], st.now[g]);
      if g == a {
        assert t.knows(a, m + 1) by { assert Informed(p, a, m, a, m + 1) by { AtHome(p, a, m); } }
      }
    }
  }

  lemma AtHome(p: Setup, a: nat, m: nat)
    requires p.WellFormed()
    ensures Informed(p, a, m, a, m + 1)
  {
  }
  // The later owner starts to serve without having heard of the client.
  lemma SecondOwnerServes(p: Setup, s: nat, m: nat, m': nat, st: State) returns (es: seq<Event>, st': State)
    requires p.WellFormed() && Changes(p, s, m, m') && m' < |p.configs| && Guided(p, SecondPlan(p, s, m, m'), st)
    requires !ServingInformed(p, p.Owner(m, s), m, p.Owner(m', s), m', s)
    ensures Leads(p, st, es, st') && Stages(p, st') && SameClients(st, st')
    ensures
      var b := p.Owner(m', s);
      Serves(st'.now[b], b, s) && 0 !in st'.now[b].lastRequest
  {
    hide StageOk, Leads, Careful, Spreads, CapsOk, SecondPlan, Informed, Measure;
    var t, b := SecondPlan(p, s, m, m'), p.Owner(m', s);
    SecondPlanCaps(p, s, m, m');
    var es1, st1 := FollowPlan(p, t, st);
    var x := st1.now[b];
    assert GroupOk(p, b, x) && x.current.num == m';
    assert 0 !in x.lastRequest by { assert Careful(t, b, x, st1.past[b], st1.pending[b]); NotInformed(p, s, m, m', b, st1); }
    NowGoesOn(p, st1, b, s);
    if x.shards[s].state == Pulling {
      var y := CleanState(p, t, st1, b, s);
      var es2, st2 := PullFrom(p, st1, b, s, p.Owner(m' - 1, s), y);
      assert GroupOk(p, b, st2.now[b]);
      es, st' := es1 + es2, st2;
      LeadsOn(p, st, es1, st1, es2, st2);
    } else {
      es, st' := es1, st1;
    }
  }

  lemma SecondPlanCaps(p: Setup, s: nat, m: nat, m': nat)
    requires p.WellFormed() && m' > 0 && p.Owner(m', s) != 0
    ensures
      var t := SecondPlan(p, s, m, m');
      && |t.caps| == p.groups && t.client == 0 && t.level == m' && t.caps[p.Owner(m', s)] == m'
      && (Moved(p, m', s) ==> t.caps[p.Owner(m' - 1, s)] == m')
      && forall h: nat, c: nat :: t.knows(h, c) == Informed(p, p.Owner(m, s), m, h, c)
  {
  }

  lemma NotInformed(p: Setup, s: nat, m: nat, m': nat, b: nat, st: State)
    requires p.WellFormed() && m' > 0 && b < |st.now| && b < |st.past| && b < |st.pending|
    requires Careful(SecondPlan(p, s, m, m'), b, st.now[b], st.past[b], st.pending[b])
    requires st.now[b].current.num == m' && !Informed(p, p.Owner(m, s), m, b, m')
    ensures 0 !in st.now[b].lastRequest
  {
    hide Informed;
  }

  lemma TwiceRun(p: Setup, s: nat, m: nat, m': nat, key: string) returns (es: seq<Event>, st: State)
    requires p.WellFormed() && Changes(p, s, m, m') && m' < |p.configs| && KeyToShard(key, p.n) == s
    requires !ServingInformed(p, p.Owner(m, s), m, p.Owner(m', s), m', s)
    ensures Leads(p, Init(p), es, st) && !Once(st)
  {
    hide StageOk, Leads, SecondPlan, Informed, ServingInformed, Init, Guided, SameProgress;
    var a, b, w := p.Owner(m, s), p.Owner(m', s), Request(0, 0, Put, key, "");
    var es1, st1 := FirstOwnerServes(p, s, m);
    assert st1.issued == map[] && st1.accepted[s] == [] by { NothingFirst(p, s); }
    var st2 := IssueFirst(p, st1, w);
    var es3, st3 := WriteAt(p, st2, a, w);
    SecondGuided(p, s, m, m', st2, st3, w);
    var es4, st4 := SecondOwnerServes(p, s, m, m', st3);
    var es5, st5 := WriteAt(p, st4, b, w);
    LeadsOn(p, Init(p), es1, st1, [Issue(w)], st2);
    LeadsOn(p, Init(p), es1 + [Issue(w)], st2, es3, st3);
    LeadsOn(p, Init(p), es1 + [Issue(w)] + es3, st3, es4, st4);
    LeadsOn(p, Init(p), es1 + [Issue(w)] + es3 + es4, st4, es5, st5);
    es, st := es1 + [Issue(w)] + es3 + es4 + es5, st5;
    assert st.accepted[s] == [w, w];
    assert Repeated(st, s, 0, s, 1);
  }

  lemma NothingFirst(p: Setup, s: nat)
    requires p.WellFormed() && s < p.n
    ensures Init(p).issued == map[] && Init(p).accepted[s] == []
  {
  }

  /** No run executes a write twice if and only if the table of a shard's earlier owner always reaches the later one before
      it serves. */
  lemma OnceExactly(p: Setup)
    requires p.WellFormed() && forall s :: 0 <= s < p.n ==> Exact.Reachable(p, s)
    ensures Told(p) <==> forall trace, events :: Run(p, trace, events) ==> Once(trace[|events|])
  {
    hide Step, Once, Init, ServingInformed;
    if Told(p) {
      forall trace: seq<State>, events: seq<Event> | Run(p, trace, events) ensures Once(trace[|events|]) {
        ToldOnce(p, trace, events);
      }
    } else {
      var s: nat, m: nat, m': nat :| Changes(p, s, m, m') && !ServingInformed(p, p.Owner(m, s), m, p.Owner(m', s), m', s);
      assert Exact.Reachable(p, s);
      var key :| KeyToShard(key, p.n) == s;
      var es, st := TwiceRun(p, s, m, m', key);
      Exact.LeadsRun(p, Init(p), es, st);
      assert Run(p, Exact.Trace(p, Init(p), es, st), es);
    }
  }

  /** A shard whose table always arrives is never served twice either. */
  lemma ToldSeparated(p: Setup)
    requires p.WellFormed() && Told(p)
    ensures Separated(p)
  {
    hide ServingInformed, ServingForces;
    forall s: nat, m: nat, m': nat | Changes(p, s, m, m') ensures ServingForces(p, p.Owner(m', s), m', s, p.Owner(m, s), m + 1) {
      ServingInformedForces(p, p.Owner(m, s), m, p.Owner(m', s), m', s);
    }
  }
  // In particular when a shard that nobody owns for a while goes back to its last owner.
  lemma KeepsTold(p: Setup)
    requires p.WellFormed() && p.KeepsOwner() && forall s :: 0 <= s < p.n ==> Exact.Reachable(p, s)
    ensures Told(p)
  {
    hide Step, Init, Told, Exact.Reachable;
    forall trace: seq<State>, events: seq<Event> | Run(p, trace, events) ensures Once(trace[|events|]) {
      var st := trace[|events|];
      forall s: nat, j: nat, s': nat, j': nat | Repeated(st, s, j, s', j') ensures s == s' && j == j' {
        Safety.AtMostOnce(p, trace, events, |events|, s, j, s', j');
      }
    }
    OnceExactly(p);
  }
}
