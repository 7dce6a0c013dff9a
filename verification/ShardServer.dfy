/** A server of a replica group, as it applies the group's log: every method changes its fields exactly as the
    corresponding command changes the group's state. */
module ShardServer {
  import opened Basics
  import opened Requests
  import opened ShardGroup
  import D = Deliveries

  // The larger of two clients' entries, where both exist.
  function Larger(a: map<nat, nat>, b: map<nat, nat>, c: nat): nat
    requires c in b
  {
    if c in a && a[c] > b[c] then a[c] else b[c]
  }

  // `table` has the larger entries of all clients but `rest`.
  ghost predicate Merging(was: map<nat, nat>, last: map<nat, nat>, table: map<nat, nat>, rest: set<nat>) {
    && (forall c :: c in table <==> c in was || (c in last && c !in rest))
    && (forall c :: c in table ==> table[c] == if c in last && c !in rest then Larger(was, last, c) else was[c])
  }

  lemma MergeOne(was: map<nat, nat>, last: map<nat, nat>, table: map<nat, nat>, rest: set<nat>, client: nat)
    requires rest <= last.Keys && client in rest && Merging(was, last, table, rest)
    ensures
      var mine := if client in table then table[client] else 0;
      Merging(was, last, table[client := if last[client] > mine then last[client] else mine], rest - {client})
  {
  }

  // What the log's commands look like to the server; the shard ids come as a list.
  datatype Message =
    | ClientMsg(req: Request)
    | ConfigMsg(config: Config)
    | InsertMsg(num: nat, data: map<nat, map<string, string>>, lastRequest: map<nat, nat>)
    | DeleteMsg(ids: seq<nat>, num: nat)
    | AdjustMsg(ids: seq<nat>, num: nat)

  // The state and the answer after a command.
  function Executed(x: Group, gid: nat, msg: Message): (Group, Reply)
    requires |x.shards| == |x.current.shards| > 0
    requires msg.ConfigMsg? ==> |msg.config.shards| == |x.shards|
  {
    match msg
    case ClientMsg(req) => GetPutAppend(x, gid, req)
    case ConfigMsg(c) => (ProcessAddConfig(x, gid, c), Reply(if c.num == x.current.num + 1 then OK else OtherErr, ""))
    case InsertMsg(num, data, last) =>
      (ProcessInsertShard(x, num, data, last), Reply(if num == x.current.num then OK else OtherErr, ""))
    case DeleteMsg(ids, num) => (ProcessDeleteShard(x, Elements(ids), num), Reply(AnswerTo(x, num), ""))
    case AdjustMsg(ids, num) => (ProcessAdjust(x, Elements(ids), num), Reply(AnswerTo(x, num), ""))
  }

  // ---------------------------------------------------------------- messages out of order

  // A server without a snapshot: configuration 0, and every shard empty and serving.
  ghost function Blank(n: nat): Group {
    Group(Config(0, seq(n, i => 0)), Config(0, seq(n, i => 0)), seq(n, i => Shard(map[], Serving)), map[])
  }

  ghost predicate Fitting(x: Group, n: nat) {
    |x.shards| == |x.current.shards| == |x.last.shards| == n > 0
  }

  ghost predicate MessageFits(msg: Message, n: nat) {
    msg.ConfigMsg? ==> |msg.config.shards| == n
  }

  // The server as a machine; it remembers the index of a snapshot.
  ghost function Machine(gid: nat, n: nat): D.Machine<Group, Message> {
    D.Machine(Blank(n), (x, msg) => if Fitting(x, n) && MessageFits(msg, n) then Executed(x, gid, msg).0 else x)
  }

  lemma {:induction false} ReplayFits(gid: nat, n: nat, log: seq<Message>)
    requires n > 0
    ensures Fitting(D.Replay(Machine(gid, n), log), n)
  {
    if log != [] {
      ReplayFits(gid, n, log[..|log| - 1]);
    }
  }

  // A log of configurations in which nobody owns anything.
  ghost function Changes(n: nat, k: nat): seq<Message> {
    seq(k, i requires 0 <= i < k => ConfigMsg(Config(i + 1, seq(n, _ => 0))))
  }

  lemma {:induction false} ChangesLeft(gid: nat, n: nat, k: nat, p: nat)
    requires n > 0 && p <= k
    ensures D.Replay(Machine(gid, n), Changes(n, k)[..p]).current.num == p
  {
    var log := Changes(n, k);
    if p == 0 {
      assert log[..p] == [];
    } else {
      ChangesLeft(gid, n, k, p - 1);
      D.ReplayNext(Machine(gid, n), log, p - 1);
      ReplayFits(gid, n, log[..p - 1]);
      hide D.Replay;
      var x := D.Replay(Machine(gid, n), log[..p - 1]);
      assert MessageFits(log[p - 1], n) && log[p - 1].config.num == x.current.num + 1;
      assert Machine(gid, n).execute(x, log[p - 1]) == Executed(x, gid, log[p - 1]).0;
    }
  }

  lemma ChangesTell(gid: nat, n: nat, k: nat)
    requires n > 0
    ensures D.Telling(Machine(gid, n), Changes(n, k))
  {
    hide D.Replay;
    var m, log := Machine(gid, n), Changes(n, k);
    forall p: nat | p <= k ensures D.Replay(m, log[..p]).current.num == p {
      ChangesLeft(gid, n, k, p);
    }
    forall p: nat, at: nat | p + 1 < at <= k ensures m.execute(D.Replay(m, log[..p]), log[at - 1]) != D.Replay(m, log[..at]) {
      ReplayFits(gid, n, log[..p]);
      assert m.execute(D.Replay(m, log[..p]), log[at - 1]).current.num == p;
    }
  }

  /** In whatever order messages above the restored snapshot arrive, this server never goes back.  It is always at the
      newest state it has heard of, whatever the log holds, if and only if no command is skipped. */
  lemma NeverBackExactly(gid: nat, n: nat, from: nat, ds: seq<D.Delivery>)
    requires n > 0 && forall k :: 0 <= k < |ds| ==> ds[k].at > from
    ensures D.Within(ds, D.Newest(from, ds)) && D.Advances(true, from, ds)
    ensures D.NoneSkipped(true, from, ds) <==>
      forall log :: |log| >= D.Newest(from, ds) ==> D.UpToDate(Machine(gid, n), true, log, from, ds)
  {
    hide D.NoneBack, D.NoneSkipped, D.NoneRepeated, D.UpToDate, D.Telling;
    D.NewestMost(from, ds);
    D.KeepingNeverBack(from, ds);
    D.AdvancesExactly(true, from, ds);
    var k := D.Newest(from, ds);
    forall log: seq<Message> | |log| >= k
      ensures D.NoneSkipped(true, from, ds) ==> D.UpToDate(Machine(gid, n), true, log, from, ds)
    {
      D.UpToDateIff(Machine(gid, n), true, log, from, ds);
    }
    ChangesTell(gid, n, k);
    D.UpToDateIff(Machine(gid, n), true, Changes(n, k), from, ds);
  }

  // What the applier reads from Raft's channel.
  datatype ApplyMsg = CommandMsg(index: nat, command: Message) | SnapshotMsg(index: nat, snapshot: Group)

  ghost predicate Carries(gid: nat, n: nat, log: seq<Message>, msg: ApplyMsg, d: D.Delivery) {
    && 0 < d.at == msg.index <= |log|
    && match msg
       case CommandMsg(index, command) => d.Command? && command == log[index - 1] && MessageFits(command, n)
       case SnapshotMsg(index, snapshot) => d.Snapshot? && snapshot == D.Replay(Machine(gid, n), log[..index])
  }

  lemma FirstDelivered(gid: nat, n: nat, log: seq<Message>, from: nat)
    requires from <= |log|
    ensures D.Delivered(Machine(gid, n), true, log, from, []) == D.Replica(D.Replay(Machine(gid, n), log[..from]), 0)
  {
  }

  lemma NextDelivered(gid: nat, n: nat, log: seq<Message>, from: nat, ds: seq<D.Delivery>, k: nat)
    requires from <= |log| && D.Within(ds, |log|) && k < |ds|
    ensures D.Delivered(Machine(gid, n), true, log, from, ds[..k + 1]) ==
      D.Deliver(Machine(gid, n), true, log, D.Delivered(Machine(gid, n), true, log, from, ds[..k]), ds[k])
  {
    assert ds[..k + 1][..k] == ds[..k];
  }

  // ---------------------------------------------------------------- the server

  class ShardKV {
    const gid: nat
    const n: nat
    var currentConfig: Config
    var lastConfig: Config
    var shards: seq<Shard>
    var lastRequestMap: map<nat, nat>
    var lastIncludedIndex: nat

    ghost predicate Valid()
      reads this
    {
      n > 0 && |shards| == |currentConfig.shards| == |lastConfig.shards| == n
    }

    ghost function Abs(): Group
      reads this
    {
      Group(currentConfig, lastConfig, shards, lastRequestMap)
    }

    // A server without a snapshot: configuration 0, and every shard empty and serving.
    constructor (gid: nat, n: nat)
      requires n > 0
      ensures Valid() && this.gid == gid && this.n == n && lastIncludedIndex == 0
      ensures Abs() == Blank(n)
    {
      this.gid, this.n := gid, n;
      currentConfig, lastConfig := Config(0, seq(n, i => 0)), Config(0, seq(n, i => 0));
      lastRequestMap := map[];
      lastIncludedIndex := 0;
      shards := [];
      new;
      while |shards| < n
        invariant |shards| <= n
        invariant forall i :: 0 <= i < |shards| ==> shards[i] == Shard(map[], Serving)
        invariant currentConfig == lastConfig == Config(0, seq(n, i => 0)) && lastRequestMap == map[] && lastIncludedIndex == 0
        modifies `shards
      {
        shards := shards + [Shard(map[], Serving)];
      }
    }

    method CheckShardAndState(shardId: nat) returns (ok: bool)
      requires Valid()
      ensures ok == Serves(Abs(), gid, shardId)
    {
      return shardId < |shards| && currentConfig.shards[shardId] == gid
        && (shards[shardId].state == Serving || shards[shardId].state == GCing);
    }

    method CheckInvalid(client: nat, id: nat) returns (invalid: bool)
      ensures invalid == IsInvalidRequest(lastRequestMap, client, id)
    {
      if client in lastRequestMap {
        if id <= lastRequestMap[client] {
          return true;
        }
      }
      return false;
    }

    method RecordRequest(req: Request)
      modifies `lastRequestMap
      ensures lastRequestMap == UpdateLastRequest(old(lastRequestMap), req.client, req.id)
    {
      if (req.client in lastRequestMap && lastRequestMap[req.client] < req.id) || req.client !in lastRequestMap {
        lastRequestMap := lastRequestMap[req.client := req.id];
      }
    }

    method DoGetPutAppend(req: Request) returns (reply: Reply)
      requires Valid()
      modifies `shards, `lastRequestMap
      ensures Valid()
      ensures (Abs(), reply) == GetPutAppend(old(Abs()), gid, req)
      ensures reply.err == ErrWrongGroup <==>
        var s := KeyToShard(req.key, n);
        currentConfig.shards[s] != gid || old(shards)[s].state in {Pulling, BePulling}
    {
      reply := Reply(OK, "");
      var shardId := KeyToShard(req.key, n);
      var mine := CheckShardAndState(shardId);
      if !mine {
        return Reply(ErrWrongGroup, "");
      }
      var invalid := CheckInvalid(req.client, req.id);
      if req.kind == Get || !invalid {
        var db := shards[shardId].data;
        match req.kind {
          case Get => reply := Reply(OK, if req.key in db then db[req.key] else "");
          case Put => db := db[req.key := req.value];
          case Append => db := db[req.key := (if req.key in db then db[req.key] else "") + req.value];
        }
        shards := shards[shardId := shards[shardId].(data := db)];
        RecordRequest(req);
      }
    }

    method DoAddConfig(c: Config) returns (reply: Reply)
      requires Valid() && |c.shards| == n
      modifies `shards, `lastConfig, `currentConfig
      ensures Valid() && Abs() == ProcessAddConfig(old(Abs()), gid, c)
      ensures reply == Reply(if c.num == old(currentConfig.num) + 1 then OK else OtherErr, "")
    {
      if c.num == currentConfig.num + 1 {
        var i := 0;
        while i < n
          invariant 0 <= i <= n && |shards| == n && currentConfig == old(currentConfig) && lastConfig == old(lastConfig)
          invariant forall j :: 0 <= j < n ==>
            shards[j] ==
            if j < i then old(shards)[j].(state := StateAfter(old(shards)[j].state, gid, currentConfig.shards[j], c.shards[j]))
            else old(shards)[j]
        {
          if c.shards[i] == gid && currentConfig.shards[i] != gid {
            if currentConfig.shards[i] != 0 {
              shards := shards[i := shards[i].(state := Pulling)];
            }
          }
          if c.shards[i] != gid && currentConfig.shards[i] == gid {
            if c.shards[i] != 0 {
              shards := shards[i := shards[i].(state := BePulling)];
            }
          }
          i := i + 1;
        }
        lastConfig := currentConfig;
        currentConfig := c;
        reply := Reply(OK, "");
      } else {
        reply := Reply(OtherErr, "");
      }
    }

    // Copies the pulled keys one by one, in any order.
    method CopyInto(db: map<string, string>, from: map<string, string>) returns (r: map<string, string>)
      ensures r == db + from
    {
      r := db;
      var rest := from.Keys;
      while rest != {}
        invariant rest <= from.Keys && r.Keys == db.Keys + (from.Keys - rest)
        invariant forall k :: k in r ==> r[k] == if k in from && k !in rest then from[k] else db[k]
        decreases |rest|
      {
        var key :| key in rest;
        r := r[key := from[key]];
        rest := rest - {key};
      }
    }

    method InstallShards(data: map<nat, map<string, string>>)
      requires Valid()
      modifies `shards
      ensures |shards| == n
      ensures forall i :: 0 <= i < n ==> shards[i] == if i in data then Installed(old(shards)[i], data[i]) else old(shards)[i]
    {
      var rest := data.Keys;
      while rest != {}
        invariant rest <= data.Keys && |shards| == n
        invariant forall i :: 0 <= i < n ==>
          shards[i] == if i in data && i !in rest then Installed(old(shards)[i], data[i]) else old(shards)[i]
        decreases |rest|
      {
        var shardId :| shardId in rest;
        if shardId < n && shards[shardId].state == Pulling {
          var db := CopyInto(shards[shardId].data, data[shardId]);
          shards := shards[shardId := Shard(db, GCing)];
        }
        rest := rest - {shardId};
      }
    }

    method MergeRequests(last: map<nat, nat>)
      modifies `lastRequestMap
      ensures lastRequestMap == MergeLast(old(lastRequestMap), last)
    {
      ghost var was := lastRequestMap;
      var table, rest := lastRequestMap, last.Keys;
      while rest != {}
        invariant rest <= last.Keys && Merging(was, last, table, rest)
        decreases |rest|
      {
        hide Merging;
        var client :| client in rest;
        var mine := if client in table then table[client] else 0;
        MergeOne(was, last, table, rest, client);
        table := table[client := if last[client] > mine then last[client] else mine];
        rest := rest - {client};
      }
      lastRequestMap := table;
    }

    method DoInsertShard(num: nat, data: map<nat, map<string, string>>, last: map<nat, nat>) returns (reply: Reply)
      requires Valid()
      modifies `shards, `lastRequestMap
      ensures Valid() && Abs() == ProcessInsertShard(old(Abs()), num, data, last)
      ensures reply == Reply(if num == currentConfig.num then OK else OtherErr, "")
    {
      if num == currentConfig.num {
        InstallShards(data);
        MergeRequests(last);
        reply := Reply(OK, "");
      } else {
        reply := Reply(OtherErr, "");
      }
    }

    method DoDeleteShard(ids: seq<nat>, num: nat) returns (reply: Reply)
      requires Valid()
      modifies `shards
      ensures Valid() && Abs() == ProcessDeleteShard(old(Abs()), Elements(ids), num)
      ensures reply == Reply(AnswerTo(old(Abs()), num), "")
    {
      if num == currentConfig.num {
        var k := 0;
        while k < |ids|
          invariant 0 <= k <= |ids| && |shards| == n
          invariant forall i :: 0 <= i < n ==> shards[i] == if i in ids[..k] then Deleted(old(shards)[i]) else old(shards)[i]
        {
          assert ids[..k + 1] == ids[..k] + [ids[k]];
          if ids[k] < n && shards[ids[k]].state == BePulling {
            shards := shards[ids[k] := Shard(map[], Serving)];
          }
          k := k + 1;
        }
        assert ids[..k] == ids;
        return Reply(OK, "");
      }
      reply := Reply(OtherErr, "");
      if num < currentConfig.num {
        reply := Reply(OK, "");
      }
    }

    method DoAdjust(ids: seq<nat>, num: nat) returns (reply: Reply)
      requires Valid()
      modifies `shards
      ensures Valid() && Abs() == ProcessAdjust(old(Abs()), Elements(ids), num)
      ensures reply == Reply(AnswerTo(old(Abs()), num), "")
    {
      if num == currentConfig.num {
        var k := 0;
        while k < |ids|
          invariant 0 <= k <= |ids| && |shards| == n
          invariant forall i :: 0 <= i < n ==> shards[i] == if i in ids[..k] then old(shards)[i].(state := Serving) else old(shards)[i]
        {
          assert ids[..k + 1] == ids[..k] + [ids[k]];
          if ids[k] < n {
            shards := shards[ids[k] := shards[ids[k]].(state := Serving)];
          }
          k := k + 1;
        }
        assert ids[..k] == ids;
        return Reply(OK, "");
      }
      reply := Reply(OtherErr, "");
      if num < currentConfig.num {
        reply := Reply(OK, "");
      }
    }

    method Execute(msg: Message) returns (reply: Reply)
      requires Valid() && (msg.ConfigMsg? ==> |msg.config.shards| == n)
      modifies `shards, `lastRequestMap, `lastConfig, `currentConfig
      ensures Valid() && (Abs(), reply) == Executed(old(Abs()), gid, msg)
    {
      match msg {
        case ClientMsg(req) => reply := DoGetPutAppend(req);
        case ConfigMsg(c) => reply := DoAddConfig(c);
        case InsertMsg(num, data, last) => reply := DoInsertShard(num, data, last);
        case DeleteMsg(ids, num) => reply := DoDeleteShard(ids, num);
        case AdjustMsg(ids, num) => reply := DoAdjust(ids, num);
      }
    }

    // One message from Raft: a command is applied only if its index is new.
    method ApplyCommand(index: nat, msg: Message)
      requires Valid() && (msg.ConfigMsg? ==> |msg.config.shards| == n)
      modifies `shards, `lastRequestMap, `lastConfig, `currentConfig, `lastIncludedIndex
      ensures Valid()
      ensures if index <= old(lastIncludedIndex)
        then Abs() == old(Abs()) && lastIncludedIndex == old(lastIncludedIndex)
        else Abs() == Executed(old(Abs()), gid, msg).0 && lastIncludedIndex == index
    {
      if index <= lastIncludedIndex {
        return;
      }
      var reply := Execute(msg);
      lastIncludedIndex := index;
    }

    // A snapshot holds the shards, the table and both configurations.
    method ApplySnapshot(index: nat, snapshot: Group)
      requires Valid() && |snapshot.shards| == |snapshot.current.shards| == |snapshot.last.shards| == n
      modifies `shards, `lastRequestMap, `lastConfig, `currentConfig, `lastIncludedIndex
      ensures Valid()
      ensures if index <= old(lastIncludedIndex)
        then Abs() == old(Abs()) && lastIncludedIndex == old(lastIncludedIndex)
        else Abs() == snapshot && lastIncludedIndex == index
    {
      if index <= lastIncludedIndex {
        return;
      }
      shards, lastRequestMap := snapshot.shards, snapshot.lastRequest;
      lastConfig, currentConfig := snapshot.last, snapshot.current;
      lastIncludedIndex := index;
    }

    // The loop of the applier over whatever messages arrive, after a restart with the snapshot at index `from`.
    method Applier(msgs: seq<ApplyMsg>, ghost log: seq<Message>, ghost from: nat, ghost ds: seq<D.Delivery>)
      requires Valid() && from <= |log| && Abs() == D.Replay(Machine(gid, n), log[..from]) && lastIncludedIndex == 0
      requires |ds| == |msgs| && forall k :: 0 <= k < |ds| ==> Carries(gid, n, log, msgs[k], ds[k])
      modifies `shards, `lastRequestMap, `lastConfig, `currentConfig, `lastIncludedIndex
      ensures Valid() && D.Within(ds, |log|)
      ensures D.Replica(Abs(), lastIncludedIndex) == D.Delivered(Machine(gid, n), true, log, from, ds)
    {
      hide D.Delivered, D.Replay, Executed;
      var k := 0;
      assert D.Within(ds, |log|) && D.Delivered(Machine(gid, n), true, log, from, []) == D.Replica(Abs(), 0) by {
        FirstDelivered(gid, n, log, from);
      }
      while k < |msgs|
        invariant 0 <= k <= |msgs| && Valid()
        invariant D.Replica(Abs(), lastIncludedIndex) == D.Delivered(Machine(gid, n), true, log, from, ds[..k])
      {
        assert Carries(gid, n, log, msgs[k], ds[k]);
        NextDelivered(gid, n, log, from, ds, k);
        match msgs[k] {
          case CommandMsg(index, command) => ApplyCommand(index, command);
          case SnapshotMsg(index, snapshot) =>
            ReplayFits(gid, n, log[..index]);
            ApplySnapshot(index, snapshot);
        }
        k := k + 1;
      }
      assert ds[..k] == ds;
    }

    // The monitors' view: the shards in a state, grouped by the group that owned them before.
    method GetShardIdsWithState(st: ShardState) returns (groups: map<nat, set<nat>>)
      requires Valid()
      ensures forall from :: from in groups <==> WithState(Abs(), st, from) != {}
      ensures forall from :: from in groups ==> groups[from] == WithState(Abs(), st, from)
    {
      groups := map[];
      var i := 0;
      while i < n
        invariant 0 <= i <= n
        invariant forall from :: from in groups <==> (set s | s in WithState(Abs(), st, from) && s < i) != {}
        invariant forall from :: from in groups ==> groups[from] == set s | s in WithState(Abs(), st, from) && s < i
      {
        GroupedSoFar(Abs(), st, i);
        if shards[i].state == st {
          var from := lastConfig.shards[i];
          groups := groups[from := (if from in groups then groups[from] else {}) + {i}];
        }
        i := i + 1;
      }
      assert forall from :: (set s | s in WithState(Abs(), st, from) && s < n) == WithState(Abs(), st, from);
    }

    // The answer to another group that pulls shards: only at the same configuration, and only shards to be pulled.
    method GetShards(ids: seq<nat>, num: nat) returns (err: Err, data: map<nat, map<string, string>>, last: map<nat, nat>)
      requires Valid()
      ensures err == if num == currentConfig.num then OK else ErrWrongGroup
      ensures err == OK ==> data == Copies(Abs(), Elements(ids)) && last == lastRequestMap
    {
      data, last := map[], map[];
      if num == currentConfig.num {
        var k := 0;
        while k < |ids|
          invariant 0 <= k <= |ids| && data == Copies(Abs(), Elements(ids[..k]))
        {
          assert ids[..k + 1] == ids[..k] + [ids[k]];
          if ids[k] < n && shards[ids[k]].state == BePulling {
            data := data[ids[k] := shards[ids[k]].data];
          }
          k := k + 1;
        }
        assert ids[..k] == ids;
        return OK, data, lastRequestMap;
      } else {
        return ErrWrongGroup, data, last;
      }
    }
  }

  lemma GroupedSoFar(x: Group, st: ShardState, i: nat)
    requires i < |x.shards| == |x.last.shards|
    ensures forall from ::
      (set s | s in WithState(x, st, from) && s < i + 1) ==
      (set s | s in WithState(x, st, from) && s < i) + if x.shards[i].state == st && x.last.shards[i] == from then {i} else {}
  {
  }
}
