/** All replica groups together.  A step is a client's or a monitor's decision, taken on any state the group ever had
    (a leader may lag behind its own log), or a group applying one command of its log.  A proposed command may be
    applied at any later time, any number of times, or never. */
module ShardProtocol {
  import opened Requests
  import opened ShardGroup

  // `n` shards, and every configuration the controller ever makes.
  datatype Setup = Setup(n: nat, groups: nat, configs: seq<Config>) {

    ghost predicate WellFormed() {
      && n > 0 && |configs| > 0
      && (forall m :: 0 <= m < |configs| ==> configs[m].num == m && |configs[m].shards| == n)
      && (forall m, s :: 0 <= m < |configs| && 0 <= s < n ==> configs[m].shards[s] < groups)
      && (forall s :: 0 <= s < n ==> configs[0].shards[s] == 0)
    }

    ghost function Owner(m: nat, s: nat): nat
      requires WellFormed()
    {
      if m < |configs| && s < n then configs[m].shards[s] else 0
    }

    // Nobody owns the shard after configuration `i` up to configuration `j`.
    ghost predicate Gap(s: nat, i: nat, j: nat)
      requires WellFormed()
    {
      i < j && forall m: nat :: i < m <= j ==> Owner(m, s) == 0
    }

    // After a gap that ends with configuration `j`, the shard goes to another group than before it.
    ghost predicate PassedOn(s: nat, i: nat, j: nat)
      requires WellFormed()
    {
      Gap(s, i, j) && Owner(i, s) != 0 && Owner(j + 1, s) != 0 && Owner(j + 1, s) != Owner(i, s)
    }

    // A shard that nobody owns for a while goes back to the group that owned it before.
    ghost predicate KeepsOwner()
      requires WellFormed()
    {
      forall s: nat, i: nat, j: nat :: !PassedOn(s, i, j)
    }

    // Once owned, a shard never goes back to gid 0.
    ghost predicate NeverDropped()
      requires WellFormed()
    {
      forall m: nat, s: nat :: m + 1 < |configs| && Owner(m, s) != 0 ==> Owner(m + 1, s) != 0
    }
  }

  /** `now[g]` is the state of group `g` and `past[g]` every state it had; gid 0 is nobody and takes no step.

      `token`, `accepted` and `done` are history: the configuration in which a shard's data was last taken over,
      the writes that changed it, in order, and every request that was executed. */
  datatype State = State(
    now: seq<Group>,
    past: seq<set<Group>>,
    pending: seq<set<Command>>,
    issued: map<nat, seq<Request>>,
    ok: set<Request>,
    token: seq<nat>,
    accepted: seq<seq<Request>>,
    done: set<Request>)

  datatype Event =
    | Issue(req: Request)
    | Submit(g: nat, req: Request)
    | Recognise(g: nat, x: Group, req: Request)
    | ProposeConfig(g: nat, x: Group)
    | Pull(g: nat, x: Group, from: nat, y: Group)
    | AskDelete(g: nat, x: Group, from: nat)
    | Apply(g: nat, cmd: Command)

  ghost function Fresh(p: Setup): Group
    requires p.WellFormed()
  {
    Group(p.configs[0], p.configs[0], seq(p.n, i => Shard(map[], Serving)), map[])
  }

  ghost function Init(p: Setup): State
    requires p.WellFormed()
  {
    State(seq(p.groups, g => Fresh(p)), seq(p.groups, g => {Fresh(p)}), seq(p.groups, g => {}),
          map[], {}, seq(p.n, s => 0), seq(p.n, s => []), {})
  }

  ghost predicate Shaped(p: Setup, st: State) {
    && |st.now| == |st.past| == |st.pending| == p.groups
    && |st.token| == |st.accepted| == p.n
  }

  ghost predicate Known(issued: map<nat, seq<Request>>, req: Request) {
    req.client in issued && req.id < |issued[req.client]| && issued[req.client][req.id] == req
  }

  // A client numbers its requests from 0, and goes on to the next one only after an OK.
  ghost predicate MayIssue(st: State, req: Request) {
    if req.client !in st.issued then req.id == 0
    else
      var sent := st.issued[req.client];
      req.id == |sent| && (sent == [] || sent[|sent| - 1] in st.ok)
  }

  ghost predicate HasState(p: Setup, st: State, g: nat, x: Group)
    requires Shaped(p, st)
  {
    0 < g < p.groups && x in st.past[g]
  }

  ghost predicate Enabled(p: Setup, st: State, e: Event)
    requires p.WellFormed() && Shaped(p, st)
  {
    match e
    case Issue(req) => MayIssue(st, req)
    case Submit(g, req) => 0 < g < p.groups && Known(st.issued, req)
    case Recognise(g, x, req) =>
      && HasState(p, st, g, x) && Known(st.issued, req) && !req.kind.Get?
      && Serves(x, g, KeyToShard(req.key, p.n)) && IsInvalidRequest(x.lastRequest, req.client, req.id)
    case ProposeConfig(g, x) => HasState(p, st, g, x) && AllServing(x) && x.current.num + 1 < |p.configs|
    case Pull(g, x, from, y) =>
      && HasState(p, st, g, x) && HasState(p, st, from, y)
      && WithState(x, Pulling, from) != {} && y.current.num == x.current.num
    case AskDelete(g, x, from) =>
      && HasState(p, st, g, x) && 0 < from < p.groups && WithState(x, GCing, from) != {}
    case Apply(g, cmd) => 0 < g < p.groups && cmd in st.pending[g]
  }

  ghost function Propose(st: State, g: nat, cmd: Command): State
    requires g < |st.pending|
  {
    st.(pending := st.pending[g := st.pending[g] + {cmd}])
  }

  ghost function MoveTo(st: State, g: nat, x: Group): State
    requires g < |st.now| == |st.past|
  {
    st.(now := st.now[g := x], past := st.past[g := st.past[g] + {x}])
  }

  // Taking a configuration makes the group the holder of the shards it keeps and of those nobody held before.
  ghost function TokensAfterConfig(p: Setup, st: State, g: nat, c: Config): seq<nat>
    requires Shaped(p, st) && g < p.groups
  {
    var x := st.now[g];
    seq(p.n, s requires 0 <= s < p.n =>
      if && c.num == x.current.num + 1 && s < |c.shards| && s < |x.current.shards|
         && c.shards[s] == g && (x.current.shards[s] == g || x.current.shards[s] == 0)
      then c.num else st.token[s])
  }

  // Installing pulled data makes the group the holder.
  ghost function TokensAfterInsert(p: Setup, st: State, g: nat, num: nat, data: map<nat, map<string, string>>): seq<nat>
    requires Shaped(p, st) && g < p.groups
  {
    var x := st.now[g];
    seq(p.n, s requires 0 <= s < p.n =>
      if num == x.current.num && s in data && s < |x.shards| && x.shards[s].state == Pulling then num else st.token[s])
  }

  ghost function ApplyClient(p: Setup, st: State, g: nat, req: Request): State
    requires p.WellFormed() && Shaped(p, st) && 0 < g < p.groups && |st.now[g].shards| == p.n
  {
    var x := st.now[g];
    var (x', reply) := GetPutAppend(x, g, req);
    var s := KeyToShard(req.key, p.n);
    var st1 := MoveTo(st, g, x').(ok := if reply.err == OK then st.ok + {req} else st.ok);
    if Executes(x, g, req) then
      st1.(done := st.done + {req},
           accepted := if req.kind.Get? then st.accepted else st.accepted[s := st.accepted[s] + [req]])
    else st1
  }

  ghost function Applied(p: Setup, st: State, g: nat, cmd: Command): State
    requires p.WellFormed() && Shaped(p, st) && 0 < g < p.groups
    requires |st.now[g].shards| == |st.now[g].current.shards| == p.n
    requires cmd.AddConfig? ==> |cmd.config.shards| == p.n
  {
    var x := st.now[g];
    match cmd
    case ClientOp(req) => ApplyClient(p, st, g, req)
    case AddConfig(c) => MoveTo(st, g, ProcessAddConfig(x, g, c)).(token := TokensAfterConfig(p, st, g, c))
    case InsertShard(num, data, last) =>
      MoveTo(st, g, ProcessInsertShard(x, num, data, last)).(token := TokensAfterInsert(p, st, g, num, data))
    case DeleteShard(ids, num, caller) =>
      var st1 := MoveTo(st, g, ProcessDeleteShard(x, ids, num));
      if AnswerTo(x, num) == OK && caller < p.groups then Propose(st1, caller, AdjustShardState(ids, num)) else st1
    case AdjustShardState(ids, num) => MoveTo(st, g, ProcessAdjust(x, ids, num))
  }

  // The configurations a group holds and the commands in its log have the right number of shards.
  ghost predicate Sized(p: Setup, st: State, e: Event)
    requires Shaped(p, st)
  {
    e.Apply? && 0 < e.g < p.groups ==>
      && |st.now[e.g].shards| == |st.now[e.g].current.shards| == p.n
      && (e.cmd.AddConfig? ==> |e.cmd.config.shards| == p.n)
  }

  ghost function Exec(p: Setup, st: State, e: Event): State
    requires p.WellFormed() && Shaped(p, st) && Enabled(p, st, e) && Sized(p, st, e)
  {
    match e
    case Issue(req) => st.(issued := st.issued[req.client := (if req.client in st.issued then st.issued[req.client] else []) + [req]])
    case Submit(g, req) => Propose(st, g, ClientOp(req))
    case Recognise(g, x, req) => st.(ok := st.ok + {req})
    case ProposeConfig(g, x) => Propose(st, g, AddConfig(p.configs[x.current.num + 1]))
    case Pull(g, x, from, y) =>
      Propose(st, g, InsertShard(x.current.num, Copies(y, WithState(x, Pulling, from)), y.lastRequest))
    case AskDelete(g, x, from) => Propose(st, from, DeleteShard(WithState(x, GCing, from), x.current.num, g))
    case Apply(g, cmd) => Applied(p, st, g, cmd)
  }

  ghost predicate Step(p: Setup, st: State, e: Event, st': State)
    requires p.WellFormed()
  {
    Shaped(p, st) && Enabled(p, st, e) && Sized(p, st, e) && st' == Exec(p, st, e)
  }

  // `trace` is a run from the initial state along `events`.
  ghost predicate Run(p: Setup, trace: seq<State>, events: seq<Event>)
    requires p.WellFormed()
  {
    && |trace| == |events| + 1
    && trace[0] == Init(p)
    && (forall i :: 0 <= i < |events| ==> Step(p, trace[i], events[i], trace[i + 1]))
  }
}
