/** One replica group of the sharded store: the state its servers agree on, and what each command does to it.
    A group's Raft log makes every server apply the same commands in the same order. */
module ShardGroup {
  import opened Requests

  datatype ShardState = Serving | Pulling | BePulling | GCing

  datatype Shard = Shard(data: map<string, string>, state: ShardState)

  // `shards[i]` is the gid that owns shard `i`; gid 0 is nobody.
  datatype Config = Config(num: nat, shards: seq<nat>)

  datatype Group = Group(current: Config, last: Config, shards: seq<Shard>, lastRequest: map<nat, nat>)

  // `caller` is the group that waits for the answer to the delete.
  datatype Command =
    | ClientOp(req: Request)
    | AddConfig(config: Config)
    | InsertShard(num: nat, data: map<nat, map<string, string>>, lastRequest: map<nat, nat>)
    | DeleteShard(ids: set<nat>, num: nat, caller: nat)
    | AdjustShardState(ids: set<nat>, num: nat)

  datatype Err = OK | ErrWrongGroup | OtherErr

  datatype Reply = Reply(err: Err, value: string)

  function KeyToShard(key: string, n: nat): nat
    requires n > 0
  {
    (if |key| > 0 then key[0] as int else 0) % n
  }

  // ---------------------------------------------------------------- client operations

  // The group accepts client operations on this shard.
  predicate Serves(x: Group, gid: nat, s: nat) {
    && s < |x.shards| && s < |x.current.shards| && x.current.shards[s] == gid
    && (x.shards[s].state == Serving || x.shards[s].state == GCing)
  }

  // The request changes or reads the shard, rather than being refused or recognised as a repetition.
  predicate Executes(x: Group, gid: nat, req: Request)
    requires |x.shards| > 0
  {
    && Serves(x, gid, KeyToShard(req.key, |x.shards|))
    && (req.kind.Get? || !IsInvalidRequest(x.lastRequest, req.client, req.id))
  }

  function GetPutAppend(x: Group, gid: nat, req: Request): (Group, Reply)
    requires |x.shards| > 0
  {
    var s := KeyToShard(req.key, |x.shards|);
    if !Serves(x, gid, s) then (x, Reply(ErrWrongGroup, ""))
    else if !Executes(x, gid, req) then (x, Reply(OK, ""))
    else
      var db := x.shards[s].data;
      (x.(shards := x.shards[s := x.shards[s].(data := Write(db, req))],
          lastRequest := UpdateLastRequest(x.lastRequest, req.client, req.id)),
       Reply(OK, if req.kind.Get? then Lookup(db, req.key) else ""))
  }

  // ---------------------------------------------------------------- migration

  // What becomes of a shard's state when its owner changes.
  function StateAfter(st: ShardState, gid: nat, from: nat, to: nat): ShardState {
    if to == gid && from != gid then
      if from != 0 then Pulling else st
    else if to != gid && from == gid then
      if to != 0 then BePulling else st
    else st
  }

  function ProcessAddConfig(x: Group, gid: nat, c: Config): Group
    requires |x.shards| == |x.current.shards| == |c.shards|
  {
    if c.num != x.current.num + 1 then x
    else
      x.(current := c, last := x.current,
         shards := seq(|x.shards|, i requires 0 <= i < |x.shards| =>
           x.shards[i].(state := StateAfter(x.shards[i].state, gid, x.current.shards[i], c.shards[i]))))
  }

  function Installed(x: Shard, db: map<string, string>): Shard {
    if x.state == Pulling then Shard(x.data + db, GCing) else x
  }

  function MergeLast(last: map<nat, nat>, other: map<nat, nat>): (r: map<nat, nat>)
  {
    map c | c in last.Keys + other.Keys ::
      if c !in other then last[c] else if c in last && last[c] > other[c] then last[c] else other[c]
  }

  function ProcessInsertShard(x: Group, num: nat, data: map<nat, map<string, string>>, lastRequest: map<nat, nat>): Group {
    if num != x.current.num then x
    else
      x.(shards := seq(|x.shards|, i requires 0 <= i < |x.shards| =>
           if i in data then Installed(x.shards[i], data[i]) else x.shards[i]),
         lastRequest := MergeLast(x.lastRequest, lastRequest))
  }

  function Deleted(x: Shard): Shard {
    if x.state == BePulling then Shard(map[], Serving) else x
  }

  function ProcessDeleteShard(x: Group, ids: set<nat>, num: nat): Group {
    if num != x.current.num then x
    else
      x.(shards := seq(|x.shards|, i requires 0 <= i < |x.shards| => if i in ids then Deleted(x.shards[i]) else x.shards[i]))
  }

  // Both the delete and the adjustment answer OK once the group has reached the caller's configuration.
  function AnswerTo(x: Group, num: nat): Err {
    if num <= x.current.num then OK else OtherErr
  }

  function ProcessAdjust(x: Group, ids: set<nat>, num: nat): Group {
    if num != x.current.num then x
    else
      x.(shards := seq(|x.shards|, i requires 0 <= i < |x.shards| =>
           if i in ids then x.shards[i].(state := Serving) else x.shards[i]))
  }

  // ---------------------------------------------------------------- what the monitors read

  predicate AllServing(x: Group) {
    forall s :: 0 <= s < |x.shards| ==> x.shards[s].state == Serving
  }

  // The shards in a state, of those that group `from` owned before.
  function WithState(x: Group, st: ShardState, from: nat): set<nat> {
    set s: nat | s < |x.shards| && s < |x.last.shards| && x.shards[s].state == st && x.last.shards[s] == from
  }

  // The copies of the shards that a GetShards answer carries.
  function Copies(y: Group, ids: set<nat>): map<nat, map<string, string>> {
    map s | s in ids && s < |y.shards| && y.shards[s].state == BePulling :: y.shards[s].data
  }
}
