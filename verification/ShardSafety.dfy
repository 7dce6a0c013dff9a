/** Every reachable state of the sharded store satisfies the invariant, and what follows from it. */
module ShardSafety {
  import opened Requests
  import opened ShardGroup
  import opened ShardProtocol
  import opened ShardInvariant
  import opened ShardSteps

  lemma InitInv(p: Setup)
    requires p.WellFormed()
    ensures Inv(p, Init(p))
  {
    var st := Init(p);
    forall s | 0 <= s < p.n ensures ShardOk(p, st, s) {
      hide Init;
      assert st.token[s] == 0 && st.accepted[s] == [];
    }
  }

  // ---------------------------------------------------------------- clients and proposals

  lemma TruthfulStays(issued: map<nat, seq<Request>>, done: set<Request>, issued': map<nat, seq<Request>>, done': set<Request>, last: map<nat, nat>)
    requires Truthful(issued, done, last) && done <= done'
    requires forall c :: c in issued ==> c in issued' && issued[c] <= issued'[c]
    ensures Truthful(issued', done', last)
  {
    forall c | c in last
      ensures c in issued' && last[c] < |issued'[c]| && forall i :: 0 <= i <= last[c] ==> issued'[c][i] in done'
    {
      assert issued[c] <= issued'[c];
    }
  }

  lemma TablesStay(st: State, st': State)
    requires TablesOk(st) && st'.past == st.past && st'.pending == st.pending && st.done <= st'.done
    requires forall c :: c in st.issued ==> c in st'.issued && st.issued[c] <= st'.issued[c]
    ensures TablesOk(st')
  {
    hide Truthful;
    forall g, x | 0 <= g < |st.past| && x in st.past[g] ensures Truthful(st'.issued, st'.done, x.lastRequest) {
      TruthfulStays(st.issued, st.done, st'.issued, st'.done, x.lastRequest);
    }
    forall g, cmd | 0 <= g < |st.pending| && cmd in st.pending[g] && cmd.InsertShard?
      ensures Truthful(st'.issued, st'.done, cmd.lastRequest)
    {
      TruthfulStays(st.issued, st.done, st'.issued, st'.done, cmd.lastRequest);
    }
  }

  lemma IssueInv(p: Setup, st: State, req: Request)
    requires p.WellFormed() && Inv(p, st) && MayIssue(st, req)
    ensures Inv(p, Exec(p, st, Issue(req)))
  {
    hide ShardOk, TablesOk;
    var st' := Exec(p, st, Issue(req));
    TablesStay(st, st');
    forall s | 0 <= s < p.n ensures ShardOk(p, st', s) {
      SameShard(p, st, st', s);
    }
  }

  // The invariant of a shard does not depend on what clients have issued.
  lemma SameShard(p: Setup, st: State, st': State, s: nat)
    requires p.WellFormed() && Shaped(p, st) && Shaped(p, st') && s < p.n && ShardOk(p, st, s)
    requires st'.now == st.now && st'.past == st.past && st'.pending == st.pending
    requires st'.token == st.token && st'.accepted == st.accepted && st'.done == st.done
    ensures ShardOk(p, st', s)
  {
  }

  lemma RecogniseInv(p: Setup, st: State, g: nat, x: Group, req: Request)
    requires p.WellFormed() && Inv(p, st) && Enabled(p, st, Recognise(g, x, req))
    ensures Inv(p, Exec(p, st, Recognise(g, x, req)))
  {
    hide ShardOk;
    var st' := Exec(p, st, Recognise(g, x, req));
    assert Truthful(st.issued, st.done, x.lastRequest);
    TablesStay(st, st');
    forall s | 0 <= s < p.n ensures ShardOk(p, st', s) {
      SameShard(p, st, st', s);
    }
  }

  lemma ProposeInv(p: Setup, st: State, g: nat, cmd: Command)
    requires p.WellFormed() && Inv(p, st) && 0 < g < p.groups
    requires forall s :: 0 <= s < p.n ==> CommandOk(p, st.now, g, cmd, s, st.token[s], st.accepted[s])
    requires cmd.ClientOp? ==> Known(st.issued, cmd.req)
    requires cmd.AddConfig? ==> |cmd.config.shards| == p.n
    requires cmd.InsertShard? ==> Truthful(st.issued, st.done, cmd.lastRequest)
    requires cmd.DeleteShard? ==> 0 < cmd.caller < p.groups
    ensures Inv(p, Propose(st, g, cmd))
  {
    hide CommandOk, HolderOk, ReachedOk, PassedOk, NowOk, PastOk, AcceptedOk, Truthful;
    var st' := Propose(st, g, cmd);
    assert GroupsOk(p, st');
    assert TablesOk(st');
    forall s | 0 <= s < p.n ensures ShardOk(p, st', s) {
      assert ShardOk(p, st, s);
    }
  }

  lemma ProposeConfigInv(p: Setup, st: State, g: nat, x: Group)
    requires p.WellFormed() && Inv(p, st) && Enabled(p, st, ProposeConfig(g, x))
    ensures Inv(p, Exec(p, st, ProposeConfig(g, x)))
  {
    hide HolderOk, ReachedOk, PassedOk, AcceptedOk, TablesOk;
    var cmd := AddConfig(p.configs[x.current.num + 1]);
    forall s | 0 <= s < p.n ensures CommandOk(p, st.now, g, cmd, s, st.token[s], st.accepted[s]) {
      assert ShardOk(p, st, s);
      assert PastOk(p, g, x, st.now[g], s, st.token[s], st.accepted[s]);
    }
    ProposeInv(p, st, g, cmd);
  }

  lemma PullInv(p: Setup, st: State, g: nat, x: Group, from: nat, y: Group)
    requires p.WellFormed() && Inv(p, st) && Enabled(p, st, Pull(g, x, from, y))
    ensures Inv(p, Exec(p, st, Pull(g, x, from, y)))
  {
    hide HolderOk, ReachedOk, PassedOk, AcceptedOk, Truthful, Replay, Covers;
    var ids := WithState(x, Pulling, from);
    var cmd := InsertShard(x.current.num, Copies(y, ids), y.lastRequest);
    forall s | 0 <= s < p.n ensures CommandOk(p, st.now, g, cmd, s, st.token[s], st.accepted[s]) {
      assert ShardOk(p, st, s);
      if s in cmd.data {
        assert PastOk(p, g, x, st.now[g], s, st.token[s], st.accepted[s]);
        assert PastOk(p, from, y, st.now[from], s, st.token[s], st.accepted[s]);
      }
    }
    ProposeInv(p, st, g, cmd);
  }

  lemma AskDeleteInv(p: Setup, st: State, g: nat, x: Group, from: nat)
    requires p.WellFormed() && Inv(p, st) && Enabled(p, st, AskDelete(g, x, from))
    ensures Inv(p, Exec(p, st, AskDelete(g, x, from)))
  {
    hide HolderOk, ReachedOk, PassedOk, AcceptedOk, TablesOk, Replay, Covers;
    var ids := WithState(x, GCing, from);
    var cmd := DeleteShard(ids, x.current.num, g);
    forall s | 0 <= s < p.n ensures CommandOk(p, st.now, from, cmd, s, st.token[s], st.accepted[s]) {
      assert ShardOk(p, st, s);
      if s in ids {
        assert PastOk(p, g, x, st.now[g], s, st.token[s], st.accepted[s]);
      }
    }
    ProposeInv(p, st, from, cmd);
  }

  // ---------------------------------------------------------------- applying commands

  // The tables and the shape after group `g` has moved to `x'`.
  lemma MovedInv(p: Setup, st: State, st': State, g: nat, x': Group)
    requires p.WellFormed() && Inv(p, st) && 0 < g < p.groups && Shaped(p, st')
    requires st'.now == st.now[g := x'] && st'.past == st.past[g := st.past[g] + {x'}] && st'.pending == st.pending
    requires st'.issued == st.issued && st.done <= st'.done
    requires GroupOk(p, g, x') && Truthful(st'.issued, st'.done, x'.lastRequest)
    requires ClientsOk(st')
    requires forall s :: 0 <= s < p.n ==> ShardOk(p, st', s)
    ensures Inv(p, st')
  {
    hide ShardOk, Truthful, GroupOk, ClientsOk;
    forall h, x | 0 <= h < |st'.past| && x in st'.past[h] ensures Truthful(st'.issued, st'.done, x.lastRequest) {
      if x in st.past[h] {
        TruthfulStays(st.issued, st.done, st'.issued, st'.done, x.lastRequest);
      }
    }
    forall h, cmd | 0 <= h < |st'.pending| && cmd in st'.pending[h] && cmd.InsertShard?
      ensures Truthful(st'.issued, st'.done, cmd.lastRequest)
    {
      TruthfulStays(st.issued, st.done, st'.issued, st'.done, cmd.lastRequest);
    }
    assert GroupsOk(p, st');
  }

  lemma ApplyConfigInv(p: Setup, st: State, g: nat, c: Config)
    requires p.WellFormed() && p.KeepsOwner() && Inv(p, st) && 0 < g < p.groups && AddConfig(c) in st.pending[g]
    ensures |st.now[g].shards| == |st.now[g].current.shards| == |c.shards| == p.n
    ensures Inv(p, Applied(p, st, g, AddConfig(c)))
  {
    hide HolderOk, ReachedOk, PassedOk, AcceptedOk, Truthful, PastOk;
    var x := st.now[g];
    assert GroupOk(p, g, x) && |c.shards| == p.n;
    var x' := ProcessAddConfig(x, g, c);
    var st' := Applied(p, st, g, AddConfig(c));
    assert ShardOk(p, st, 0) && CommandOk(p, st.now, g, AddConfig(c), 0, st.token[0], st.accepted[0]);
    forall s | 0 <= s < p.n ensures ShardOk(p, st', s) {
      assert ShardOk(p, st, s) && CommandOk(p, st.now, g, AddConfig(c), s, st.token[s], st.accepted[s]);
      ConfigCase(p, st, g, c, s);
    }
    MovedInv(p, st, st', g, x');
  }

  lemma ConfigCase(p: Setup, st: State, g: nat, c: Config, s: nat)
    requires p.WellFormed() && p.KeepsOwner() && Shaped(p, st) && 0 < g < p.groups && s < p.n && ShardOk(p, st, s)
    requires |st.now[g].shards| == |st.now[g].current.shards| == |c.shards| == p.n && st.now[g] in st.past[g]
    requires CommandOk(p, st.now, g, AddConfig(c), s, st.token[s], st.accepted[s]) && GroupOk(p, g, st.now[g])
    ensures ShardOk(p, Applied(p, st, g, AddConfig(c)), s)
  {
    hide HolderOk, ReachedOk, PassedOk, AcceptedOk, PastOk, NowOk;
    var x := st.now[g];
    var x' := ProcessAddConfig(x, g, c);
    var st' := Applied(p, st, g, AddConfig(c));
    if c.num == x.current.num + 1 {
      assert TakesConfig(p, st, st', g, x', s);
      ConfigShard(p, st, st', g, x', s);
    } else {
      QuietShard(p, st, st', g, x', s);
    }
  }

  lemma MergeMeaning(issued: map<nat, seq<Request>>, done: set<Request>, a: map<nat, nat>, b: map<nat, nat>)
    requires Truthful(issued, done, a) && Truthful(issued, done, b)
    ensures Truthful(issued, done, MergeLast(a, b))
    ensures Extends(a, MergeLast(a, b)) && Extends(b, MergeLast(a, b))
  {
  }

  lemma ApplyInsertInv(p: Setup, st: State, g: nat, num: nat, data: map<nat, map<string, string>>, last: map<nat, nat>)
    requires p.WellFormed() && Inv(p, st) && 0 < g < p.groups && InsertShard(num, data, last) in st.pending[g]
    ensures |st.now[g].shards| == |st.now[g].current.shards| == p.n
    ensures Inv(p, Applied(p, st, g, InsertShard(num, data, last)))
  {
    hide HolderOk, ReachedOk, PassedOk, AcceptedOk, Truthful, PastOk, MergeLast, Extends, NowOk;
    var x := st.now[g];
    var cmd := InsertShard(num, data, last);
    assert GroupOk(p, g, x) && Truthful(st.issued, st.done, x.lastRequest) && Truthful(st.issued, st.done, last);
    MergeMeaning(st.issued, st.done, x.lastRequest, last);
    var x' := ProcessInsertShard(x, num, data, last);
    var st' := Applied(p, st, g, cmd);
    assert Extends(x.lastRequest, x'.lastRequest) by { SelfExtends(x.lastRequest); }
    forall s | 0 <= s < p.n ensures ShardOk(p, st', s) {
      assert ShardOk(p, st, s) && CommandOk(p, st.now, g, cmd, s, st.token[s], st.accepted[s]);
      if num == x.current.num && s in data && x.shards[s].state == Pulling {
        InstallShard(p, st, st', g, x', s, data[s], last);
      } else {
        QuietShard(p, st, st', g, x', s);
      }
    }
    MovedInv(p, st, st', g, x');
  }

  lemma SelfExtends(last: map<nat, nat>)
    ensures Extends(last, last)
  {
  }

  lemma DeleteMovedInv(p: Setup, st: State, g: nat, ids: set<nat>, num: nat, caller: nat)
    requires p.WellFormed() && Inv(p, st) && 0 < g < p.groups && DeleteShard(ids, num, caller) in st.pending[g]
    ensures |st.now[g].shards| == |st.now[g].current.shards| == p.n
    ensures Inv(p, MoveTo(st, g, ProcessDeleteShard(st.now[g], ids, num)))
  {
    hide HolderOk, ReachedOk, PassedOk, AcceptedOk, Truthful, PastOk, NowOk, Extends;
    var x := st.now[g];
    var cmd := DeleteShard(ids, num, caller);
    assert GroupOk(p, g, x) && Truthful(st.issued, st.done, x.lastRequest);
    var x' := ProcessDeleteShard(x, ids, num);
    var st' := MoveTo(st, g, x');
    SelfExtends(x.lastRequest);
    forall s | 0 <= s < p.n ensures ShardOk(p, st', s) {
      assert ShardOk(p, st, s) && CommandOk(p, st.now, g, cmd, s, st.token[s], st.accepted[s]);
      if num == x.current.num && s in ids && x.shards[s].state == BePulling {
        DeletedShard(p, st, st', g, x', s);
      } else {
        QuietShard(p, st, st', g, x', s);
      }
    }
    MovedInv(p, st, st', g, x');
  }

  lemma ApplyDeleteInv(p: Setup, st: State, g: nat, ids: set<nat>, num: nat, caller: nat)
    requires p.WellFormed() && Inv(p, st) && 0 < g < p.groups && DeleteShard(ids, num, caller) in st.pending[g]
    ensures |st.now[g].shards| == |st.now[g].current.shards| == p.n
    ensures Inv(p, Applied(p, st, g, DeleteShard(ids, num, caller)))
  {
    hide HolderOk, ReachedOk, PassedOk, AcceptedOk, PastOk, NowOk, TablesOk;
    var x := st.now[g];
    DeleteMovedInv(p, st, g, ids, num, caller);
    var st1 := MoveTo(st, g, ProcessDeleteShard(x, ids, num));
    if AnswerTo(x, num) == OK {
      var cmd := AdjustShardState(ids, num);
      forall s | 0 <= s < p.n ensures CommandOk(p, st1.now, caller, cmd, s, st1.token[s], st1.accepted[s]) {
        assert ShardOk(p, st, s);
        assert CommandOk(p, st.now, g, DeleteShard(ids, num, caller), s, st.token[s], st.accepted[s]);
      }
      ProposeInv(p, st1, caller, cmd);
    }
  }

  lemma ApplyAdjustInv(p: Setup, st: State, g: nat, ids: set<nat>, num: nat)
    requires p.WellFormed() && Inv(p, st) && 0 < g < p.groups && AdjustShardState(ids, num) in st.pending[g]
    ensures |st.now[g].shards| == |st.now[g].current.shards| == p.n
    ensures Inv(p, Applied(p, st, g, AdjustShardState(ids, num)))
  {
    hide HolderOk, ReachedOk, PassedOk, AcceptedOk, Truthful, PastOk, NowOk, Extends;
    var x := st.now[g];
    var cmd := AdjustShardState(ids, num);
    assert GroupOk(p, g, x) && Truthful(st.issued, st.done, x.lastRequest);
    var x' := ProcessAdjust(x, ids, num);
    var st' := Applied(p, st, g, cmd);
    SelfExtends(x.lastRequest);
    forall s | 0 <= s < p.n ensures ShardOk(p, st', s) {
      assert ShardOk(p, st, s) && CommandOk(p, st.now, g, cmd, s, st.token[s], st.accepted[s]);
      if num == x.current.num && s in ids {
        AdjustedShard(p, st, st', g, x', s);
      } else {
        QuietShard(p, st, st', g, x', s);
      }
    }
    MovedInv(p, st, st', g, x');
  }

  // ---------------------------------------------------------------- client operations

  // A group never executes a write twice: a write it would execute is not among the accepted ones.
  lemma NewWrite(p: Setup, st: State, g: nat, s: nat, req: Request)
    requires p.WellFormed() && Shaped(p, st) && 0 < g < p.groups && s < p.n && ShardOk(p, st, s)
    requires Serves(st.now[g], g, s) && !IsInvalidRequest(st.now[g].lastRequest, req.client, req.id)
    ensures req !in st.accepted[s]
  {
    hide CommandOk, AcceptedOk, PassedOk, ReachedOk, PastOk, Replay;
    assert NowOk(p, g, st.now[g], s, st.token[s]);
    assert p.Owner(st.token[s], s) == g;
  }

  lemma AcceptedNext(p: Setup, done: set<Request>, ws: seq<Request>, s: nat, req: Request)
    requires p.WellFormed() && AcceptedOk(p, done, ws, s) && (IsWriteOn(p, req, s) ==> req !in ws)
    ensures AcceptedOk(p, done + {req}, if IsWriteOn(p, req, s) then ws + [req] else ws, s)
  {
  }

  lemma UpdateMeaning(st: State, req: Request, last: map<nat, nat>)
    requires ClientsOk(st) && Known(st.issued, req) && Truthful(st.issued, st.done, last)
    ensures Truthful(st.issued, st.done + {req}, UpdateLastRequest(last, req.client, req.id))
    ensures Extends(last, UpdateLastRequest(last, req.client, req.id))
  {
    var last' := UpdateLastRequest(last, req.client, req.id);
    forall c | c in last'
      ensures c in st.issued && last'[c] < |st.issued[c]| && forall i :: 0 <= i <= last'[c] ==> st.issued[c][i] in st.done + {req}
    {
      if c == req.client && last'[c] == req.id {
        forall i | 0 <= i <= req.id ensures st.issued[c][i] in st.done + {req} {
          assert i == req.id || st.issued[c][i] in st.done;
        }
      }
    }
  }

  lemma ExecuteInv(p: Setup, st: State, g: nat, req: Request)
    requires p.WellFormed() && Inv(p, st) && 0 < g < p.groups && Known(st.issued, req)
    requires |st.now[g].shards| == p.n && Executes(st.now[g], g, req)
    ensures Inv(p, ApplyClient(p, st, g, req))
  {
    hide HolderOk, ReachedOk, PassedOk, AcceptedOk, Truthful, PastOk, NowOk, Extends, CommandOk;
    var x, x', st' := st.now[g], GetPutAppend(st.now[g], g, req).0, ApplyClient(p, st, g, req);
    assert GroupOk(p, g, x) && Truthful(st.issued, st.done, x.lastRequest);
    UpdateMeaning(st, req, x.lastRequest);
    forall s | 0 <= s < p.n ensures ShardOk(p, st', s) {
      assert ShardOk(p, st, s);
      ExecuteCase(p, st, g, req, s);
    }
    MovedInv(p, st, st', g, x');
  }

  lemma ExecuteCase(p: Setup, st: State, g: nat, req: Request, s: nat)
    requires p.WellFormed() && Shaped(p, st) && 0 < g < p.groups && s < p.n && ShardOk(p, st, s)
    requires |st.now[g].shards| == p.n && Executes(st.now[g], g, req) && st.now[g] in st.past[g]
    requires Extends(st.now[g].lastRequest, UpdateLastRequest(st.now[g].lastRequest, req.client, req.id))
    ensures ShardOk(p, ApplyClient(p, st, g, req), s)
  {
    hide HolderOk, ReachedOk, PassedOk, AcceptedOk, PastOk, NowOk, Extends, CommandOk;
    var x' := GetPutAppend(st.now[g], g, req).0;
    var st' := ApplyClient(p, st, g, req);
    if IsWriteOn(p, req, s) {
      NewWrite(p, st, g, s, req);
      AcceptedNext(p, st.done, st.accepted[s], s, req);
      WriteShard(p, st, st', g, x', s, req);
    } else {
      AcceptedNext(p, st.done, st.accepted[s], s, req);
      QuietShard(p, st, st', g, x', s);
    }
  }

  lemma RefuseInv(p: Setup, st: State, g: nat, req: Request)
    requires p.WellFormed() && Inv(p, st) && 0 < g < p.groups && Known(st.issued, req)
    requires |st.now[g].shards| == p.n && !Executes(st.now[g], g, req)
    ensures Inv(p, ApplyClient(p, st, g, req))
  {
    hide HolderOk, ReachedOk, PassedOk, AcceptedOk, PastOk, NowOk, Extends, CommandOk;
    var x, st' := st.now[g], ApplyClient(p, st, g, req);
    assert GroupOk(p, g, x) && Truthful(st.issued, st.done, x.lastRequest);
    SelfExtends(x.lastRequest);
    forall s | 0 <= s < p.n ensures ShardOk(p, st', s) {
      assert ShardOk(p, st, s);
      QuietShard(p, st, st', g, x, s);
    }
    MovedInv(p, st, st', g, x);
  }

  // ---------------------------------------------------------------- every run

  lemma ApplyInv(p: Setup, st: State, g: nat, cmd: Command)
    requires p.WellFormed() && p.KeepsOwner() && Inv(p, st) && Enabled(p, st, Apply(g, cmd))
    ensures Sized(p, st, Apply(g, cmd)) && Inv(p, Applied(p, st, g, cmd))
  {
    hide ShardOk, ClientsOk;
    match cmd
    case ClientOp(req) =>
      if Executes(st.now[g], g, req) {
        ExecuteInv(p, st, g, req);
      } else {
        RefuseInv(p, st, g, req);
      }
    case AddConfig(c) => ApplyConfigInv(p, st, g, c);
    case InsertShard(num, data, last) => ApplyInsertInv(p, st, g, num, data, last);
    case DeleteShard(ids, num, caller) => ApplyDeleteInv(p, st, g, ids, num, caller);
    case AdjustShardState(ids, num) => ApplyAdjustInv(p, st, g, ids, num);
  }

  /** Every step that is enabled can be taken, and keeps the invariant. */
  lemma StepKeeps(p: Setup, st: State, e: Event)
    requires p.WellFormed() && p.KeepsOwner() && Inv(p, st) && Enabled(p, st, e)
    ensures Sized(p, st, e) && Inv(p, Exec(p, st, e))
  {
    hide ShardOk, ClientsOk, GroupsOk, TablesOk, Inv;
    match e
    case Issue(req) => IssueInv(p, st, req);
    case Submit(g, req) => SubmitInv(p, st, g, req);
    case Recognise(g, x, req) => RecogniseInv(p, st, g, x, req);
    case ProposeConfig(g, x) => ProposeConfigInv(p, st, g, x);
    case Pull(g, x, from, y) => PullInv(p, st, g, x, from, y);
    case AskDelete(g, x, from) => AskDeleteInv(p, st, g, x, from);
    case Apply(g, cmd) => ApplyInv(p, st, g, cmd);
  }

  lemma SubmitInv(p: Setup, st: State, g: nat, req: Request)
    requires p.WellFormed() && Inv(p, st) && 0 < g < p.groups && Known(st.issued, req)
    ensures Inv(p, Exec(p, st, Submit(g, req)))
  {
    ProposeInv(p, st, g, ClientOp(req));
  }

  lemma {:induction false} RunInv(p: Setup, trace: seq<State>, events: seq<Event>, i: nat)
    requires p.WellFormed() && p.KeepsOwner() && Run(p, trace, events) && i < |trace|
    ensures Inv(p, trace[i])
  {
    hide Inv, Exec, Init;
    if i == 0 {
      InitInv(p);
    } else {
      RunInv(p, trace, events, i - 1);
      assert Step(p, trace[i - 1], events[i - 1], trace[i - 1 + 1]);
      StepKeeps(p, trace[i - 1], events[i - 1]);
    }
  }

  // ---------------------------------------------------------------- what it means

  /** At most one group accepts client operations on a shard, whatever configurations the groups are at. */
  lemma SingleServer(p: Setup, trace: seq<State>, events: seq<Event>, i: nat, s: nat, g: nat, h: nat)
    requires p.WellFormed() && p.KeepsOwner() && Run(p, trace, events) && i < |trace| && s < p.n
    requires 0 < g < |trace[i].now| && 0 < h < |trace[i].now|
    requires Serves(trace[i].now[g], g, s) && Serves(trace[i].now[h], h, s)
    ensures g == h
  {
    RunInv(p, trace, events, i);
    var st := trace[i];
    assert ShardOk(p, st, s);
    assert NowOk(p, g, st.now[g], s, st.token[s]) && NowOk(p, h, st.now[h], s, st.token[s]);
  }

  // The group `h` has the shard with everything that was written to it.
  ghost predicate HasAll(st: State, h: nat, s: nat)
    requires h < |st.now| && s < |st.accepted|
  {
    && s < |st.now[h].shards|
    && st.now[h].shards[s].data == Replay(st.accepted[s])
    && Covers(st.now[h].lastRequest, st.accepted[s])
  }

  /** No accepted write is lost: whoever serves a shard has exactly the accepted writes in order, and once something
      was written, some group has it all even in the middle of a migration. */
  lemma NoWriteLost(p: Setup, trace: seq<State>, events: seq<Event>, i: nat, s: nat)
    requires p.WellFormed() && p.KeepsOwner() && Run(p, trace, events) && i < |trace| && s < p.n
    ensures Shaped(p, trace[i])
    ensures forall g :: 0 < g < p.groups && Serves(trace[i].now[g], g, s) ==> HasAll(trace[i], g, s)
    ensures trace[i].accepted[s] != [] ==> exists h :: 0 < h < p.groups && HasAll(trace[i], h, s)
  {
    hide AcceptedOk, ReachedOk, PassedOk, PastOk, CommandOk, Replay, Covers;
    RunInv(p, trace, events, i);
    var st := trace[i];
    assert ShardOk(p, st, s);
    var t := st.token[s];
    forall g | 0 < g < p.groups && Serves(st.now[g], g, s) ensures HasAll(st, g, s) {
      assert NowOk(p, g, st.now[g], s, t);
      assert p.Owner(t, s) == g;
    }
    if st.accepted[s] != [] {
      var h := p.Owner(t, s);
      assert NowOk(p, h, st.now[h], s, t);
      assert HasAll(st, h, s);
    }
  }

  /** When an old owner clears its copy, another group already has everything that was written. */
  lemma ClearedAfterInstalled(p: Setup, trace: seq<State>, events: seq<Event>, i: nat, g: nat, s: nat)
    requires p.WellFormed() && p.KeepsOwner() && Run(p, trace, events) && i < |events| && s < p.n
    requires events[i].Apply? && events[i].cmd.DeleteShard? && events[i].g == g
    requires 0 < g < |trace[i].now| && s < |trace[i].now[g].shards|
    requires events[i].cmd.num == trace[i].now[g].current.num && s in events[i].cmd.ids
    requires trace[i].now[g].shards[s].state == BePulling
    ensures Shaped(p, trace[i]) && exists h :: 0 < h < p.groups && h != g && HasAll(trace[i], h, s)
  {
    hide AcceptedOk, ReachedOk, PassedOk, PastOk, Replay, Covers;
    RunInv(p, trace, events, i);
    var st := trace[i];
    assert Step(p, trace[i], events[i], trace[i + 1]);
    assert ShardOk(p, st, s);
    assert CommandOk(p, st.now, g, events[i].cmd, s, st.token[s], st.accepted[s]);
    var h := p.Owner(st.token[s], s);
    assert NowOk(p, h, st.now[h], s, st.token[s]);
    assert HasAll(st, h, s);
  }

  /** Over all groups and configurations, a request changes shard data at most once. */
  lemma AtMostOnce(p: Setup, trace: seq<State>, events: seq<Event>, i: nat, s: nat, j: nat, s': nat, j': nat)
    requires p.WellFormed() && p.KeepsOwner() && Run(p, trace, events) && i < |trace|
    requires s < |trace[i].accepted| && j < |trace[i].accepted[s]| && s' < |trace[i].accepted| && j' < |trace[i].accepted[s']|
    requires trace[i].accepted[s][j].client == trace[i].accepted[s'][j'].client
    requires trace[i].accepted[s][j].id == trace[i].accepted[s'][j'].id
    ensures s == s' && j == j'
  {
    hide ReachedOk, PassedOk, PastOk, CommandOk, NowOk, HolderOk;
    RunInv(p, trace, events, i);
    var st := trace[i];
    assert ShardOk(p, st, s) && ShardOk(p, st, s');
    var a, b := st.accepted[s][j], st.accepted[s'][j'];
    assert Known(st.issued, a) && Known(st.issued, b);
    assert IsWriteOn(p, a, s) && IsWriteOn(p, b, s');
  }

  lemma StepGrows(p: Setup, st: State, e: Event, s: nat)
    requires p.WellFormed() && Shaped(p, st) && Enabled(p, st, e) && Sized(p, st, e) && s < p.n
    ensures Shaped(p, Exec(p, st, e)) && st.accepted[s] <= Exec(p, st, e).accepted[s]
  {
  }

  /** The accepted writes are never taken back or reordered. */
  lemma {:induction false} AcceptedGrow(p: Setup, trace: seq<State>, events: seq<Event>, i: nat, j: nat, s: nat)
    requires p.WellFormed() && Run(p, trace, events) && i <= j < |trace| && s < p.n
    ensures Shaped(p, trace[j]) && Shaped(p, trace[i])
    ensures trace[i].accepted[s] <= trace[j].accepted[s]
    decreases j
  {
    hide Exec, Enabled, Sized;
    if j > 0 {
      AcceptedGrow(p, trace, events, if i < j then i else j - 1, j - 1, s);
      assert Step(p, trace[j - 1], events[j - 1], trace[j - 1 + 1]);
      StepGrows(p, trace[j - 1], events[j - 1], s);
    }
  }

  /** An OK to a write means that the write changed its shard, exactly once. */
  lemma OkMeansOnce(p: Setup, trace: seq<State>, events: seq<Event>, i: nat, req: Request)
    requires p.WellFormed() && p.KeepsOwner() && Run(p, trace, events) && i < |trace|
    requires req in trace[i].ok && !req.kind.Get?
    ensures KeyToShard(req.key, p.n) < |trace[i].accepted|
    ensures multiset(trace[i].accepted[KeyToShard(req.key, p.n)])[req] == 1
  {
    hide ReachedOk, PassedOk, PastOk, CommandOk, NowOk, HolderOk;
    RunInv(p, trace, events, i);
    var st := trace[i];
    var s := KeyToShard(req.key, p.n);
    assert ShardOk(p, st, s) && IsWriteOn(p, req, s);
    OnceInSeq(st.accepted[s], req);
  }

  lemma {:induction false} OnceInSeq(ws: seq<Request>, req: Request)
    requires forall i, j :: 0 <= i < j < |ws| ==> ws[i] != ws[j]
    ensures multiset(ws)[req] == if req in ws then 1 else 0
  {
    if ws != [] {
      var rest, e := ws[..|ws| - 1], ws[|ws| - 1];
      assert ws == rest + [e];
      assert e !in rest;
      OnceInSeq(rest, req);
    }
  }

  /** A Get that is answered reads what all the accepted writes left, wherever the shard has been. */
  lemma GetReadsAll(p: Setup, trace: seq<State>, events: seq<Event>, i: nat, g: nat, req: Request)
    requires p.WellFormed() && p.KeepsOwner() && Run(p, trace, events) && i < |trace|
    requires 0 < g < |trace[i].now| && |trace[i].now[g].shards| > 0 && req.kind.Get?
    requires GetPutAppend(trace[i].now[g], g, req).1.err == OK
    ensures KeyToShard(req.key, p.n) < |trace[i].accepted|
    ensures GetPutAppend(trace[i].now[g], g, req).1.value == Lookup(Replay(trace[i].accepted[KeyToShard(req.key, p.n)]), req.key)
  {
    hide Replay, Covers, ShardOk;
    RunInv(p, trace, events, i);
    assert GroupOk(p, g, trace[i].now[g]);
    var s := KeyToShard(req.key, p.n);
    NoWriteLost(p, trace, events, i, s);
    assert HasAll(trace[i], g, s);
  }
}
