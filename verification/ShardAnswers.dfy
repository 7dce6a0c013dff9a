/** What each command means to a group: which requests it refuses, what the others read or change, and what the commands
    of a migration do to every shard. */
module ShardAnswers {
  import opened Requests
  import opened ShardGroup
  import opened ShardProtocol
  import opened ShardInvariant
  import opened ShardStages
  import opened ShardProgress

  /** A request is refused with ErrWrongGroup exactly when the key's shard belongs to another gid, or is still to be pulled
      or to be given away; then nothing changes.  Every other request is answered with OK. */
  lemma RefusedExactly(x: Group, gid: nat, req: Request)
    requires |x.shards| == |x.current.shards| > 0
    ensures
      var (x', r), s := GetPutAppend(x, gid, req), KeyToShard(req.key, |x.shards|);
      && (r.err == ErrWrongGroup <==> x.current.shards[s] != gid || x.shards[s].state in {Pulling, BePulling})
      && (r.err == ErrWrongGroup ==> x' == x && r.value == "")
      && (r.err != ErrWrongGroup ==> r.err == OK)
  {
  }

  // The value that a request leaves at its key.
  ghost function ValueAfter(value: string, req: Request): string {
    match req.kind
    case Get => value
    case Put => req.value
    case Append => value + req.value
  }

  /** A request that is answered: a get returns the value of its key; a write that the table does not know changes its key
      in its shard, and nothing else but the client's entry; a write that it knows changes nothing. */
  lemma AnsweredMeaning(x: Group, gid: nat, req: Request)
    requires |x.shards| == |x.current.shards| > 0 && GetPutAppend(x, gid, req).1.err == OK
    ensures
      var (x', r), s := GetPutAppend(x, gid, req), KeyToShard(req.key, |x.shards|);
      var known := req.client in x.lastRequest && req.id <= x.lastRequest[req.client];
      && r.value == (if req.kind.Get? then Lookup(x.shards[s].data, req.key) else "")
      && x'.current == x.current && x'.last == x.last && |x'.shards| == |x.shards|
      && (forall t :: 0 <= t < |x.shards| ==> x'.shards[t].state == x.shards[t].state && (t != s ==> x'.shards[t] == x.shards[t]))
      && (forall k :: k != req.key ==> Lookup(x'.shards[s].data, k) == Lookup(x.shards[s].data, k))
      && Lookup(x'.shards[s].data, req.key) ==
           (if known then Lookup(x.shards[s].data, req.key) else ValueAfter(Lookup(x.shards[s].data, req.key), req))
      && x'.lastRequest == (if known then x.lastRequest else x.lastRequest[req.client := req.id])
  {
  }

  /** Only the next configuration is taken.  A shard that comes from another group is to be pulled, one that goes to another
      group is to be given away, and every other shard stays as it is, those that come from or go to nobody included. */
  lemma ConfigMeaning(x: Group, gid: nat, c: Config)
    requires |x.shards| == |x.current.shards| == |c.shards|
    ensures
      var x' := ProcessAddConfig(x, gid, c);
      if c.num != x.current.num + 1 then x' == x
      else
        && x'.current == c && x'.last == x.current && x'.lastRequest == x.lastRequest && |x'.shards| == |x.shards|
        && forall s :: 0 <= s < |x.shards| ==>
             var from, to := x.current.shards[s], c.shards[s];
             && x'.shards[s].data == x.shards[s].data
             && (to == gid && from !in {gid, 0} ==> x'.shards[s].state == Pulling)
             && (from == gid && to !in {gid, 0} ==> x'.shards[s].state == BePulling)
             && (!(to == gid && from !in {gid, 0}) && !(from == gid && to !in {gid, 0}) ==> x'.shards[s] == x.shards[s])
  {
  }

  ghost predicate ClearedOf(x: Shard, x': Shard) {
    x'.data == map[] && x'.state == Serving && x.state == BePulling
  }

  /** Only data for the present configuration is installed, and only in shards that wait for it: their keys get the values
      that came, other keys keep theirs.  Every client's entry becomes the larger one. */
  lemma InsertMeaning(x: Group, num: nat, data: map<nat, map<string, string>>, last: map<nat, nat>)
    ensures
      var x' := ProcessInsertShard(x, num, data, last);
      if num != x.current.num then x' == x
      else
        && x'.current == x.current && x'.last == x.last && |x'.shards| == |x.shards|
        && (forall s :: 0 <= s < |x.shards| ==>
              if s in data && x.shards[s].state == Pulling then
                && x'.shards[s].state == GCing
                && forall k :: Lookup(x'.shards[s].data, k) == if k in data[s] then data[s][k] else Lookup(x.shards[s].data, k)
              else x'.shards[s] == x.shards[s])
        && (forall c, id :: IsInvalidRequest(x'.lastRequest, c, id) <==>
              IsInvalidRequest(x.lastRequest, c, id) || IsInvalidRequest(last, c, id))
  {
  }

  /** Only the listed shards that are to be given away are cleared, and only for the present configuration. */
  lemma DeleteMeaning(x: Group, ids: set<nat>, num: nat)
    ensures
      var x' := ProcessDeleteShard(x, ids, num);
      && x' == x.(shards := x'.shards) && |x'.shards| == |x.shards|
      && forall s :: 0 <= s < |x.shards| ==>
           if num == x.current.num && s in ids && x.shards[s].state == BePulling then ClearedOf(x.shards[s], x'.shards[s])
           else x'.shards[s] == x.shards[s]
  {
  }

  /** Only the listed shards start to serve, and only for the present configuration. */
  lemma AdjustMeaning(x: Group, ids: set<nat>, num: nat)
    ensures
      var x' := ProcessAdjust(x, ids, num);
      && x' == x.(shards := x'.shards) && |x'.shards| == |x.shards|
      && forall s :: 0 <= s < |x.shards| ==>
           x'.shards[s].data == x.shards[s].data
           && x'.shards[s].state == if num == x.current.num && s in ids then Serving else x.shards[s].state
  {
  }

  /** In every run, for any configurations, a group refuses every request on a shard that its configuration gives to
      another gid, and it answers every request on a shard of its own once all its shards have settled. */
  lemma RunRefuses(p: Setup, trace: seq<State>, events: seq<Event>, i: nat, g: nat, req: Request)
    requires p.WellFormed() && Run(p, trace, events) && i < |trace| && 0 < g < p.groups
    ensures Shaped(p, trace[i]) && |trace[i].now[g].shards| == p.n
    ensures
      var x, s := trace[i].now[g], KeyToShard(req.key, p.n);
      var (x', r) := GetPutAppend(x, g, req);
      && (p.Owner(x.current.num, s) != g ==> r.err == ErrWrongGroup && x' == x)
      && (p.Owner(x.current.num, s) == g && AllServing(x) ==> r.err == OK)
  {
    hide StageOk;
    RunStages(p, trace, events, i);
    var x := trace[i].now[g];
    assert GroupOk(p, g, x);
    RefusedExactly(x, g, req);
  }
}
