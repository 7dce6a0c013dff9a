/** What every reachable state of the sharded store satisfies.  Apart from the clauses on clients, everything is said
    about one shard at a time, in terms of its token: the number of the configuration whose owner took the data over. */
module ShardInvariant {
  import opened Requests
  import opened ShardGroup
  import opened ShardProtocol

  // ---------------------------------------------------------------- the meaning of the history

  // The data after these writes, from the empty shard.
  ghost function Replay(ws: seq<Request>): map<string, string> {
    if ws == [] then map[] else Write(Replay(ws[..|ws| - 1]), ws[|ws| - 1])
  }

  // A group with this table would recognise each of the writes.
  ghost predicate Covers(last: map<nat, nat>, ws: seq<Request>) {
    forall i :: 0 <= i < |ws| ==> IsInvalidRequest(last, ws[i].client, ws[i].id)
  }

  // Every request the table would refuse has been executed.
  ghost predicate Truthful(issued: map<nat, seq<Request>>, done: set<Request>, last: map<nat, nat>) {
    forall c :: c in last ==>
      c in issued && last[c] < |issued[c]| && forall i :: 0 <= i <= last[c] ==> issued[c][i] in done
  }

  // A copy of the shard that is still good while the token is below `num`.
  ghost predicate Copy(data: map<string, string>, last: map<nat, nat>, num: nat, t: nat, ws: seq<Request>) {
    t + 1 >= num && (t + 1 == num ==> data == Replay(ws) && Covers(last, ws))
  }

  // ---------------------------------------------------------------- one group, one shard

  // The configurations are those of the controller, and each shard's state fits the change of owner.
  ghost predicate GroupOk(p: Setup, g: nat, x: Group)
    requires p.WellFormed()
  {
    && x.current.num < |p.configs| && x.current == p.configs[x.current.num]
    && x.last == p.configs[if x.current.num == 0 then 0 else x.current.num - 1]
    && |x.shards| == p.n
  }

  ghost predicate Fits(p: Setup, g: nat, x: Group, s: nat)
    requires p.WellFormed() && s < |x.shards|
  {
    var m := x.current.num;
    match x.shards[s].state
    case Serving => true
    case Pulling => m > 0 && Moved(p, m, s) && p.Owner(m, s) == g
    case GCing => m > 0 && Moved(p, m, s) && p.Owner(m, s) == g
    case BePulling => m > 0 && Moved(p, m, s) && p.Owner(m - 1, s) == g
  }

  // Configuration `m` moves the shard from one group to another.
  ghost predicate Moved(p: Setup, m: nat, s: nat)
    requires p.WellFormed()
  {
    m > 0 && p.Owner(m, s) != p.Owner(m - 1, s) && p.Owner(m, s) != 0 && p.Owner(m - 1, s) != 0
  }

  // A state the group had, or has.
  ghost predicate PastOk(p: Setup, g: nat, x: Group, now: Group, s: nat, t: nat, ws: seq<Request>)
    requires p.WellFormed()
  {
    && GroupOk(p, g, x) && s < |x.shards| && s < |now.shards| && Fits(p, g, x, s)
    && x.current.num <= now.current.num
    && (x.current.num == now.current.num && x.shards[s].state == Serving ==> now.shards[s].state == Serving)
    && (x.shards[s].state == GCing ==> t >= x.current.num)
    && (x.shards[s].state == BePulling ==> Copy(x.shards[s].data, x.lastRequest, x.current.num, t, ws))
  }

  ghost predicate NowOk(p: Setup, g: nat, x: Group, s: nat, t: nat)
    requires p.WellFormed()
  {
    && GroupOk(p, g, x) && s < |x.shards| && Fits(p, g, x, s)
    && (Serves(x, g, s) ==> t == x.current.num)
    && (x.shards[s].state == Pulling ==> t < x.current.num && x.shards[s].data == map[])
    && (x.shards[s].state == Serving && p.Owner(x.current.num, s) != g ==>
          x.shards[s].data == map[] || (p.Owner(t, s) == g && p.Gap(s, t, x.current.num)))
  }

  // The group that gave the shard away in configuration `m` has deleted its copy.
  ghost predicate Released(p: Setup, now: seq<Group>, m: nat, s: nat)
    requires p.WellFormed() && m > 0
  {
    var a := p.Owner(m - 1, s);
    && a < |now| && s < |now[a].shards|
    && (now[a].current.num > m || (now[a].current.num == m && now[a].shards[s].state != BePulling))
  }

  // The group is done with configuration `m`, as far as the shard goes.
  ghost predicate DoneWith(x: Group, m: nat, s: nat) {
    m < x.current.num || (m == x.current.num && s < |x.shards| && x.shards[s].state == Serving)
  }

  ghost predicate PassedOk(p: Setup, now: seq<Group>, m: nat, s: nat, t: nat)
    requires p.WellFormed()
  {
    var g := p.Owner(m, s);
    0 < g < |now| ==>
      && (m < now[g].current.num ==> t >= m)
      && (Moved(p, m, s) && DoneWith(now[g], m, s) ==> Released(p, now, m, s))
  }

  // ---------------------------------------------------------------- the token

  ghost predicate ReachedOk(p: Setup, now: seq<Group>, m: nat, s: nat, t: nat)
    requires p.WellFormed()
  {
    var g := p.Owner(m, s);
    m <= t && 0 < g < |now| ==> now[g].current.num >= m
  }

  // The group the token points to has the data: it serves the shard, holds it for the next owner, or keeps it while
  // nobody owns it.
  ghost predicate HolderOk(p: Setup, now: seq<Group>, s: nat, t: nat, ws: seq<Request>)
    requires p.WellFormed()
  {
    && t < |p.configs|
    && (t == 0 ==> ws == [])
    && (t > 0 ==>
      var h := p.Owner(t, s);
      && 0 < h < |now| && s < |now[h].shards|
      && now[h].shards[s].data == Replay(ws) && Covers(now[h].lastRequest, ws)
      && ((now[h].current.num == t && now[h].shards[s].state in {Serving, GCing})
        || (now[h].current.num == t + 1 && now[h].shards[s].state == BePulling)
        || (now[h].shards[s].state == Serving && p.Gap(s, t, now[h].current.num))))
  }

  // ---------------------------------------------------------------- commands on their way

  ghost predicate InsertOk(p: Setup, now: seq<Group>, g: nat, num: nat, data: map<string, string>, last: map<nat, nat>, s: nat, t: nat, ws: seq<Request>)
    requires p.WellFormed()
  {
    && num > 0 && p.Owner(num, s) == g && Moved(p, num, s)
    && p.Owner(num - 1, s) < |now| && now[p.Owner(num - 1, s)].current.num >= num
    && Copy(data, last, num, t, ws)
  }

  // What a command in the log of group `g` says about the shard.
  ghost predicate CommandOk(p: Setup, now: seq<Group>, g: nat, cmd: Command, s: nat, t: nat, ws: seq<Request>)
    requires p.WellFormed() && g < |now|
  {
    match cmd
    case ClientOp(req) => true
    case AddConfig(c) =>
      && 0 < c.num < |p.configs| && c == p.configs[c.num] && now[g].current.num + 1 >= c.num
      && (now[g].current.num + 1 == c.num ==> s < |now[g].shards| && now[g].shards[s].state == Serving)
    case InsertShard(num, data, last) =>
      s in data ==> InsertOk(p, now, g, num, data[s], last, s, t, ws)
    case DeleteShard(ids, num, caller) =>
      s in ids ==> num > 0 && Moved(p, num, s) && p.Owner(num, s) == caller && p.Owner(num - 1, s) == g && t >= num
    case AdjustShardState(ids, num) =>
      s in ids ==> num > 0 && Moved(p, num, s) && p.Owner(num, s) == g && t >= num && Released(p, now, num, s)
  }

  // ---------------------------------------------------------------- clients

  ghost predicate IsWriteOn(p: Setup, req: Request, s: nat)
    requires p.WellFormed()
  {
    !req.kind.Get? && KeyToShard(req.key, p.n) == s
  }

  // The accepted writes are the executed ones, each once.
  ghost predicate AcceptedOk(p: Setup, done: set<Request>, ws: seq<Request>, s: nat)
    requires p.WellFormed()
  {
    && (forall i :: 0 <= i < |ws| ==> ws[i] in done && IsWriteOn(p, ws[i], s))
    && (forall i, j :: 0 <= i < j < |ws| ==> ws[i] != ws[j])
    && (forall req :: req in done && IsWriteOn(p, req, s) ==> req in ws)
  }

  ghost predicate ClientsOk(st: State) {
    && (forall c, i :: c in st.issued && 0 <= i < |st.issued[c]| ==> st.issued[c][i].client == c && st.issued[c][i].id == i)
    && (forall c, i :: c in st.issued && 0 <= i < |st.issued[c]| - 1 ==> st.issued[c][i] in st.done)
    && st.ok <= st.done
    && (forall req :: req in st.done ==> Known(st.issued, req))
  }

  ghost predicate TablesOk(st: State) {
    && (forall g, x :: 0 <= g < |st.past| && x in st.past[g] ==> Truthful(st.issued, st.done, x.lastRequest))
    && (forall g, cmd :: 0 <= g < |st.pending| && cmd in st.pending[g] && cmd.InsertShard? ==>
          Truthful(st.issued, st.done, cmd.lastRequest))
    && (forall g, cmd :: 0 <= g < |st.pending| && cmd in st.pending[g] && cmd.ClientOp? ==> Known(st.issued, cmd.req))
  }

  // ---------------------------------------------------------------- together

  ghost predicate GroupsOk(p: Setup, st: State)
    requires p.WellFormed() && Shaped(p, st)
  {
    && (forall g :: 0 <= g < p.groups ==> st.now[g] in st.past[g] && GroupOk(p, g, st.now[g]))
    && (forall g, cmd :: 0 <= g < p.groups && cmd in st.pending[g] && cmd.AddConfig? ==> |cmd.config.shards| == p.n)
    && (forall g, cmd :: 0 <= g < p.groups && cmd in st.pending[g] && cmd.DeleteShard? ==> 0 < cmd.caller < p.groups)
  }

  ghost predicate ShardOk(p: Setup, st: State, s: nat)
    requires p.WellFormed() && Shaped(p, st) && s < p.n
  {
    var t, ws := st.token[s], st.accepted[s];
    && HolderOk(p, st.now, s, t, ws)
    && (forall m: nat :: m < |p.configs| ==> ReachedOk(p, st.now, m, s, t))
    && (forall m: nat :: m < |p.configs| ==> PassedOk(p, st.now, m, s, t))
    && (forall g :: 0 < g < p.groups ==> NowOk(p, g, st.now[g], s, t))
    && (forall g, x :: 0 < g < p.groups && x in st.past[g] ==> PastOk(p, g, x, st.now[g], s, t, ws))
    && (forall g, cmd :: 0 < g < p.groups && cmd in st.pending[g] ==> CommandOk(p, st.now, g, cmd, s, t, ws))
    && AcceptedOk(p, st.done, ws, s)
  }

  ghost predicate Inv(p: Setup, st: State)
    requires p.WellFormed()
  {
    && Shaped(p, st)
    && GroupsOk(p, st)
    && ClientsOk(st)
    && TablesOk(st)
    && (forall s :: 0 <= s < p.n ==> ShardOk(p, st, s))
  }
}
