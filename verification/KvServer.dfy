/** The replicated key/value server: it applies a log in which clients' requests may be repeated. */
module KvServer {
  import opened Requests
  import D = Deliveries

  // What a snapshot holds.
  datatype Store = Store(db: map<string, string>, last: map<nat, nat>)

  const EMPTY := Store(map[], map[])

  function Execute(st: Store, op: Request): Store {
    if op.kind != Get && IsInvalidRequest(st.last, op.client, op.id) then st
    else Store(Write(st.db, op), UpdateLastRequest(st.last, op.client, op.id))
  }

  ghost function ApplyLog(st: Store, log: seq<Request>): Store {
    if log == [] then st else Execute(ApplyLog(st, log[..|log| - 1]), log[|log| - 1])
  }

  // ---------------------------------------------------------------- each write once

  // The reference: every operation of the list is performed.
  ghost function PerformAll(log: seq<Request>): map<string, string> {
    if log == [] then map[] else Write(PerformAll(log[..|log| - 1]), log[|log| - 1])
  }

  ghost predicate SameRequest(a: Request, b: Request) {
    a.client == b.client && a.id == b.id
  }

  // The log without repetitions: each request where it first occurs.
  ghost function FirstOccurrences(log: seq<Request>): seq<Request> {
    if log == [] then []
    else
      var rest, op := log[..|log| - 1], log[|log| - 1];
      if Occurs(rest, op) then FirstOccurrences(rest) else FirstOccurrences(rest) + [op]
  }

  ghost predicate Occurs(log: seq<Request>, op: Request) {
    exists i :: 0 <= i < |log| && SameRequest(log[i], op)
  }

  // The client has already been seen with this number or a later one.
  ghost predicate Overtaken(log: seq<Request>, op: Request) {
    exists i :: 0 <= i < |log| && log[i].client == op.client && log[i].id >= op.id
  }

  // Every write first occurs before its client is seen with a later number; reads may come in any order.
  ghost predicate InOrder(log: seq<Request>) {
    forall j :: 0 <= j < |log| && log[j].kind != Get && Overtaken(log[..j], log[j]) ==> Occurs(log[..j], log[j])
  }

  ghost function Writes(log: seq<Request>): seq<Request> {
    if log == [] then []
    else Writes(log[..|log| - 1]) + if log[|log| - 1].kind == Get then [] else [log[|log| - 1]]
  }

  lemma {:induction false} TableMeaning(log: seq<Request>, op: Request)
    ensures IsInvalidRequest(ApplyLog(EMPTY, log).last, op.client, op.id) <==> Overtaken(log, op)
  {
    if log != [] {
      var rest, e := log[..|log| - 1], log[|log| - 1];
      TableMeaning(rest, op);
      TableMeaning(rest, e);
      OvertakenNext(rest, e, op);
      assert log == rest + [e];
      if Overtaken(rest, e) && op.client == e.client && e.id >= op.id {
        OvertakenMore(rest, e, op);
      }
    }
  }

  lemma OvertakenNext(rest: seq<Request>, e: Request, op: Request)
    ensures Overtaken(rest + [e], op) <==> Overtaken(rest, op) || (e.client == op.client && e.id >= op.id)
  {
    var log := rest + [e];
    if Overtaken(rest, op) {
      var i :| 0 <= i < |rest| && rest[i].client == op.client && rest[i].id >= op.id;
      assert log[i] == rest[i];
    }
    if Overtaken(log, op) {
      var i :| 0 <= i < |log| && log[i].client == op.client && log[i].id >= op.id;
      assert i < |rest| ==> rest[i] == log[i];
    }
    assert log[|rest|] == e;
  }

  lemma OvertakenMore(rest: seq<Request>, e: Request, op: Request)
    requires Overtaken(rest, e) && op.client == e.client && e.id >= op.id
    ensures Overtaken(rest, op)
  {
    var i :| 0 <= i < |rest| && rest[i].client == e.client && rest[i].id >= e.id;
    assert rest[i].client == op.client && rest[i].id >= op.id;
  }

  /** The server performs exactly the reads and the writes that no earlier operation of the client has overtaken. */
  ghost function Fresh(log: seq<Request>): seq<Request> {
    if log == [] then []
    else
      var rest, op := log[..|log| - 1], log[|log| - 1];
      if op.kind != Get && Overtaken(rest, op) then Fresh(rest) else Fresh(rest) + [op]
  }

  lemma PerformNext(ops: seq<Request>, op: Request)
    ensures PerformAll(ops + [op]) == Write(PerformAll(ops), op)
  {
    assert (ops + [op])[..|ops|] == ops;
  }

  lemma {:induction false} PerformsFresh(log: seq<Request>)
    ensures ApplyLog(EMPTY, log).db == PerformAll(Fresh(log))
  {
    if log != [] {
      var rest, op := log[..|log| - 1], log[|log| - 1];
      PerformsFresh(rest);
      TableMeaning(rest, op);
      PerformNext(Fresh(rest), op);
    }
  }

  lemma OccursOvertakes(rest: seq<Request>, op: Request)
    requires Occurs(rest, op)
    ensures Overtaken(rest, op)
  {
    var i :| 0 <= i < |rest| && SameRequest(rest[i], op);
    assert rest[i].client == op.client && rest[i].id >= op.id;
  }

  lemma WritesNext(ops: seq<Request>, op: Request)
    ensures Writes(ops + [op]) == Writes(ops) + if op.kind == Get then [] else [op]
  {
    assert (ops + [op])[..|ops|] == ops;
  }

  // Reads change nothing.
  lemma {:induction false} OnlyWritesMatter(ops: seq<Request>)
    ensures PerformAll(Writes(ops)) == PerformAll(ops)
  {
    if ops != [] {
      var rest, op := ops[..|ops| - 1], ops[|ops| - 1];
      OnlyWritesMatter(rest);
      PerformNext(Writes(rest), op);
      assert Writes(rest) + [] == Writes(rest);
    }
  }

  // The writes that are dropped although they did not occur before.
  ghost function Lost(log: seq<Request>): nat {
    if log == [] then 0
    else
      var rest, op := log[..|log| - 1], log[|log| - 1];
      Lost(rest) + if op.kind != Get && Overtaken(rest, op) && !Occurs(rest, op) then 1 else 0
  }

  lemma InOrderPrefix(log: seq<Request>)
    requires log != []
    ensures InOrder(log) <==>
      && InOrder(log[..|log| - 1])
      && (log[|log| - 1].kind != Get && Overtaken(log[..|log| - 1], log[|log| - 1]) ==> Occurs(log[..|log| - 1], log[|log| - 1]))
  {
    var rest := log[..|log| - 1];
    assert forall j :: 0 <= j < |rest| ==> rest[..j] == log[..j] && rest[j] == log[j];
  }

  lemma {:induction false} NothingLost(log: seq<Request>)
    ensures Lost(log) == 0 <==> InOrder(log)
  {
    if log != [] {
      NothingLost(log[..|log| - 1]);
      InOrderPrefix(log);
    }
  }

  // The last operation is added to both lists or to none, unless it is lost.
  lemma LostNext(log: seq<Request>)
    requires log != []
    ensures
      var rest, op := log[..|log| - 1], log[|log| - 1];
      var f, g := Writes(FirstOccurrences(rest)), Writes(Fresh(rest));
      var f', g' := Writes(FirstOccurrences(log)), Writes(Fresh(log));
      if Lost(log) > Lost(rest) then f' == f + [op] && g' == g && Lost(log) == Lost(rest) + 1
      else Lost(log) == Lost(rest) && ((f' == f && g' == g) || (f' == f + [op] && g' == g + [op]))
  {
    hide Occurs, Overtaken;
    var rest, op := log[..|log| - 1], log[|log| - 1];
    WritesNext(FirstOccurrences(rest), op);
    WritesNext(Fresh(rest), op);
    if Occurs(rest, op) {
      OccursOvertakes(rest, op);
    }
    hide Writes;
    assert Writes(FirstOccurrences(rest)) + [] == Writes(FirstOccurrences(rest));
    assert Writes(Fresh(rest)) + [] == Writes(Fresh(rest));
  }

  lemma {:induction false} LostCounted(log: seq<Request>)
    ensures |Writes(FirstOccurrences(log))| == |Writes(Fresh(log))| + Lost(log)
    ensures Lost(log) == 0 ==> Writes(FirstOccurrences(log)) == Writes(Fresh(log))
  {
    if log != [] {
      LostCounted(log[..|log| - 1]);
      LostNext(log);
      hide Occurs, Overtaken, Writes, Lost, Fresh, FirstOccurrences;
    }
  }

  /** The server performs exactly each write once, where it first occurs, if and only if the writes are in order. */
  lemma FirstWritesExactly(log: seq<Request>)
    ensures Writes(Fresh(log)) == Writes(FirstOccurrences(log)) <==> InOrder(log)
  {
    LostCounted(log);
    NothingLost(log);
  }

  /** So a log with retries has the effect of its first occurrences. */
  lemma ExactlyOnce(log: seq<Request>)
    requires InOrder(log)
    ensures ApplyLog(EMPTY, log).db == PerformAll(FirstOccurrences(log))
  {
    FirstWritesExactly(log);
    PerformsFresh(log);
    OnlyWritesMatter(Fresh(log));
    OnlyWritesMatter(FirstOccurrences(log));
  }

  /** A write that comes for the first time after its client was seen with a later number has no effect at all. */
  lemma OvertakenIsLost(log: seq<Request>, op: Request)
    requires op.kind != Get && Overtaken(log, op) && !Occurs(log, op)
    ensures ApplyLog(EMPTY, log + [op]) == ApplyLog(EMPTY, log)
    ensures FirstOccurrences(log + [op]) == FirstOccurrences(log) + [op] && !InOrder(log + [op])
  {
    assert (log + [op])[..|log|] == log;
    TableMeaning(log, op);
    InOrderPrefix(log + [op]);
  }

  // ---------------------------------------------------------------- restarts

  lemma {:induction false} ApplyMore(st: Store, log: seq<Request>, more: seq<Request>)
    ensures ApplyLog(st, log + more) == ApplyLog(ApplyLog(st, log), more)
  {
    if more == [] {
      assert log + more == log;
    } else {
      ApplyMore(st, log, more[..|more| - 1]);
      assert (log + more)[..|log + more| - 1] == log + more[..|more| - 1];
    }
  }

  /** Executing any commands of the log again, in any order and any number of times, changes nothing. */
  lemma {:induction false} AgainNothing(log: seq<Request>, again: seq<Request>)
    requires forall i :: 0 <= i < |again| ==> again[i] in log
    ensures ApplyLog(ApplyLog(EMPTY, log), again) == ApplyLog(EMPTY, log)
  {
    if again != [] {
      var op := again[|again| - 1];
      AgainNothing(log, again[..|again| - 1]);
      assert op in log;
      TableMeaning(log, op);
    }
  }

  /** A server that restores a snapshot and then receives commands from any earlier point of the log on ends in the
      same state as one that applied the log once. */
  lemma RestoreAnywhere(log: seq<Request>, snapshot: nat, from: nat)
    requires from <= snapshot <= |log|
    ensures ApplyLog(ApplyLog(EMPTY, log[..snapshot]), log[from..]) == ApplyLog(EMPTY, log)
  {
    var st := ApplyLog(EMPTY, log[..snapshot]);
    var again, rest := log[from..snapshot], log[snapshot..];
    assert log[from..] == again + rest && log == log[..snapshot] + rest;
    ApplyMore(st, again, rest);
    forall i | 0 <= i < |again| ensures again[i] in log[..snapshot] {
      assert again[i] == log[..snapshot][from + i];
    }
    AgainNothing(log[..snapshot], again);
    ApplyMore(EMPTY, log[..snapshot], rest);
  }

  lemma AgainOne(log: seq<Request>, op: Request)
    requires op in log
    ensures Execute(ApplyLog(EMPTY, log), op) == ApplyLog(EMPTY, log)
  {
    AgainNothing(log, [op]);
    assert [op][..0] == [];
  }

  // ---------------------------------------------------------------- messages out of order

  // The server as a machine; it does not remember the index of a snapshot.
  ghost function Machine(): D.Machine<Store, Request> {
    D.Machine(EMPTY, (st, op) => Execute(st, op))
  }

  lemma {:induction false} ReplayIsApply(log: seq<Request>)
    ensures D.Replay(Machine(), log) == ApplyLog(EMPTY, log)
  {
    if log != [] {
      ReplayIsApply(log[..|log| - 1]);
    }
  }

  lemma RepeatsNothing(log: seq<Request>)
    ensures D.Idempotent(Machine(), log)
  {
    forall p: nat, i: nat | i < p <= |log|
      ensures Machine().execute(D.Replay(Machine(), log[..p]), log[i]) == D.Replay(Machine(), log[..p])
    {
      ReplayIsApply(log[..p]);
      assert log[i] == log[..p][i];
      AgainOne(log[..p], log[i]);
    }
  }

  ghost function Key(i: nat): (key: string)
    ensures |key| == i
  {
    seq(i, _ => 'k')
  }

  // A log of writes by different clients to different keys.
  ghost function Writers(n: nat): seq<Request> {
    seq(n, i requires 0 <= i < n => Request(i, 0, Put, Key(i), "v"))
  }

  lemma {:induction false} WritersLeft(n: nat, p: nat)
    requires p <= n
    ensures forall i: nat :: Key(i) in ApplyLog(EMPTY, Writers(n)[..p]).db <==> i < p
    ensures forall i: nat :: i in ApplyLog(EMPTY, Writers(n)[..p]).last <==> i < p
  {
    hide Key;
    if p > 0 {
      WritersLeft(n, p - 1);
      assert Writers(n)[..p][..p - 1] == Writers(n)[..p - 1];
    }
  }

  lemma WritersTell(n: nat)
    ensures D.Telling(Machine(), Writers(n))
  {
    var m, log := Machine(), Writers(n);
    forall p: nat, q: nat | p < q <= n ensures D.Replay(m, log[..p]) != D.Replay(m, log[..q]) {
      ReplayIsApply(log[..p]);
      ReplayIsApply(log[..q]);
      WritersLeft(n, p);
      WritersLeft(n, q);
      assert Key(p) in ApplyLog(EMPTY, log[..q]).db;
    }
    forall p: nat, at: nat | p + 1 < at <= n ensures m.execute(D.Replay(m, log[..p]), log[at - 1]) != D.Replay(m, log[..at]) {
      ReplayIsApply(log[..p]);
      ReplayIsApply(log[..at]);
      WritersLeft(n, p);
      WritersLeft(n, at);
      assert Key(p) in ApplyLog(EMPTY, log[..at]).db;
    }
  }

  /** The deliveries keep the server at the newest state it has heard of, whatever the log holds, if and only if no
      command is skipped and no snapshot is taken that lies behind what the server has applied. */
  lemma InTurnExactly(from: nat, ds: seq<D.Delivery>)
    requires forall k :: 0 <= k < |ds| ==> ds[k].at > 0
    ensures D.Within(ds, D.Newest(from, ds))
    ensures D.InTurn(false, from, ds) <==>
      forall log :: |log| >= D.Newest(from, ds) ==> D.UpToDate(Machine(), false, log, from, ds)
  {
    D.NewestMost(from, ds);
    var n := D.Newest(from, ds);
    forall log: seq<Request> | |log| >= n ensures D.InTurn(false, from, ds) ==> D.UpToDate(Machine(), false, log, from, ds) {
      RepeatsNothing(log);
      D.UpToDateIff(Machine(), false, log, from, ds);
    }
    WritersTell(n);
    RepeatsNothing(Writers(n));
    D.UpToDateIff(Machine(), false, Writers(n), from, ds);
  }

  lemma FirstDelivered(log: seq<Request>, from: nat)
    requires from <= |log|
    ensures D.Delivered(Machine(), false, log, from, []) == D.Replica(D.Replay(Machine(), log[..from]), 0)
  {
  }

  lemma NextDelivered(log: seq<Request>, from: nat, ds: seq<D.Delivery>, k: nat)
    requires from <= |log| && D.Within(ds, |log|) && k < |ds|
    ensures D.Delivered(Machine(), false, log, from, ds[..k + 1]) ==
      D.Deliver(Machine(), false, log, D.Delivered(Machine(), false, log, from, ds[..k]), ds[k])
  {
    assert ds[..k + 1][..k] == ds[..k];
  }

  // Two snapshots in the wrong order leave the server at the older one.
  lemma OlderSnapshotTaken(log: seq<Request>, p: nat, q: nat)
    requires 0 < q < p <= |log|
    ensures D.Delivered(Machine(), false, log, 0, [D.Snapshot(p), D.Snapshot(q)]) == D.Replica(ApplyLog(EMPTY, log[..q]), 0)
  {
    var ds := [D.Snapshot(p), D.Snapshot(q)];
    assert ds[..0] == [] && ds[..2] == ds;
    FirstDelivered(log, 0);
    NextDelivered(log, 0, ds, 0);
    NextDelivered(log, 0, ds, 1);
    ReplayIsApply(log[..q]);
  }

  /** Then a write is gone, and the commands that follow do not bring it back. */
  lemma OlderSnapshotLoses()
    ensures
      var log := [Request(0, 0, Put, "a", "1"), Request(1, 0, Put, "b", "2"), Request(2, 0, Put, "c", "3")];
      var r := D.Delivered(Machine(), false, log, 0, [D.Snapshot(2), D.Snapshot(1), D.Command(3)]);
      "b" in ApplyLog(EMPTY, log).db && "b" !in r.state.db && "c" in r.state.db && r.last == 3
  {
    var a, b, c := Request(0, 0, Put, "a", "1"), Request(1, 0, Put, "b", "2"), Request(2, 0, Put, "c", "3");
    var log := [a, b, c];
    OlderSnapshotTaken(log, 2, 1);
    assert D.Before([D.Snapshot(2), D.Snapshot(1), D.Command(3)]) == [D.Snapshot(2), D.Snapshot(1)];
    assert log[..1] == [a] && [a][..0] == [] && [a, b][..1] == [a] && log[..2] == [a, b];
    assert ApplyLog(EMPTY, [a]) == Store(map["a" := "1"], map[0 := 0]);
    assert ApplyLog(EMPTY, [a, b]) == Execute(ApplyLog(EMPTY, [a]), b);
  }

  // What the applier reads from Raft's channel; the command index of a snapshot is left at 0.
  datatype ApplyMsg = CommandMsg(index: nat, op: Request) | SnapshotMsg(index: nat, snapshot: Store)

  ghost predicate Carries(log: seq<Request>, msg: ApplyMsg, d: D.Delivery) {
    && 0 < d.at == msg.index <= |log|
    && match msg
       case CommandMsg(index, op) => d.Command? && op == log[index - 1]
       case SnapshotMsg(index, snapshot) => d.Snapshot? && snapshot == ApplyLog(EMPTY, log[..index])
  }

  // ---------------------------------------------------------------- the server

  class KVServer {
    var kvdb: map<string, string>
    var lastRequestMap: map<nat, nat>
    var lastIncludedIndex: int

    ghost function Abs(): Store
      reads this
    {
      Store(kvdb, lastRequestMap)
    }

    constructor ()
      ensures Abs() == EMPTY && lastIncludedIndex == 0
    {
      kvdb, lastRequestMap, lastIncludedIndex := map[], map[], 0;
    }

    method CheckInvalid(client: nat, id: nat) returns (invalid: bool)
      ensures invalid == IsInvalidRequest(lastRequestMap, client, id)
    {
      if client in lastRequestMap {
        if id <= lastRequestMap[client] {
          return true;
        }
      }
      return false;
    }

    method RecordRequest(op: Request)
      modifies `lastRequestMap
      ensures lastRequestMap == UpdateLastRequest(old(lastRequestMap), op.client, op.id)
    {
      if (op.client in lastRequestMap && lastRequestMap[op.client] < op.id) || op.client !in lastRequestMap {
        lastRequestMap := lastRequestMap[op.client := op.id];
      }
    }

    method DoExecute(op: Request) returns (value: string)
      modifies `kvdb, `lastRequestMap
      ensures Abs() == Execute(old(Abs()), op)
      ensures op.kind == Get ==> value == Lookup(old(kvdb), op.key)
    {
      value := op.value;
      var invalid := CheckInvalid(op.client, op.id);
      if op.kind != Get && invalid {
        return;
      }
      match op.kind {
        case Get => value := if op.key in kvdb then kvdb[op.key] else "";
        case Put => kvdb := kvdb[op.key := op.value];
        case Append => kvdb := kvdb[op.key := (if op.key in kvdb then kvdb[op.key] else "") + op.value];
      }
      RecordRequest(op);
    }

    method ApplyCommand(index: int, op: Request)
      modifies this
      ensures if index <= old(lastIncludedIndex)
        then Abs() == old(Abs()) && lastIncludedIndex == old(lastIncludedIndex)
        else Abs() == Execute(old(Abs()), op) && lastIncludedIndex == index
    {
      if index <= lastIncludedIndex {
        return;
      }
      var value := DoExecute(op);
      lastIncludedIndex := index;
    }

    // After a snapshot the server records the message's command index, which need not be the snapshot's index.
    method ApplySnapshot(snapshotIndex: int, commandIndex: int, snapshot: Store)
      modifies this
      ensures if snapshotIndex <= old(lastIncludedIndex)
        then Abs() == old(Abs()) && lastIncludedIndex == old(lastIncludedIndex)
        else Abs() == snapshot && lastIncludedIndex == commandIndex
    {
      if snapshotIndex <= lastIncludedIndex {
        return;
      }
      kvdb, lastRequestMap := snapshot.db, snapshot.last;
      lastIncludedIndex := commandIndex;
    }

    // The loop of the applier over whatever messages arrive, after a restart with the snapshot at index `from`.
    method Applier(msgs: seq<ApplyMsg>, ghost log: seq<Request>, ghost from: nat, ghost ds: seq<D.Delivery>)
      requires from <= |log| && Abs() == ApplyLog(EMPTY, log[..from]) && lastIncludedIndex == 0
      requires |ds| == |msgs| && forall k :: 0 <= k < |ds| ==> Carries(log, msgs[k], ds[k])
      modifies this
      ensures D.Within(ds, |log|) && lastIncludedIndex >= 0
      ensures D.Replica(Abs(), lastIncludedIndex) == D.Delivered(Machine(), false, log, from, ds)
      ensures D.InTurn(false, from, ds) ==>
        D.Newest(from, ds) <= |log| && Abs() == ApplyLog(EMPTY, log[..D.Newest(from, ds)])
    {
      hide D.Delivered, Execute, ApplyLog;
      ghost var m := Machine();
      ReplayIsApply(log[..from]);
      FirstDelivered(log, from);
      var k := 0;
      while k < |msgs|
        invariant 0 <= k <= |msgs| && lastIncludedIndex >= 0
        invariant D.Replica(Abs(), lastIncludedIndex) == D.Delivered(m, false, log, from, ds[..k])
      {
        assert Carries(log, msgs[k], ds[k]);
        NextDelivered(log, from, ds, k);
        match msgs[k] {
          case CommandMsg(index, op) => ApplyCommand(index, op);
          case SnapshotMsg(index, snapshot) =>
            ReplayIsApply(log[..index]);
            ApplySnapshot(index, 0, snapshot);
        }
        k := k + 1;
      }
      assert ds[..k] == ds;
      if D.InTurn(false, from, ds) {
        RepeatsNothing(log);
        D.AtSomePrefix(m, false, log, from, ds);
        D.InTurnNewest(false, from, ds);
        ReplayIsApply(log[..D.Newest(from, ds)]);
      }
    }

    // The loop of the applier over the commands `log[from..]`, with the index that Raft gives each of them.
    method ApplyFrom(ghost log: seq<Request>, suffix: seq<Request>, from: nat, ghost applied: nat)
      requires from <= applied <= |log| && suffix == log[from..] && Abs() == ApplyLog(EMPTY, log[..applied])
      requires 0 <= lastIncludedIndex <= applied
      modifies this
      ensures Abs() == ApplyLog(EMPTY, log)
    {
      var k := 0;
      ghost var done := applied;
      while k < |suffix|
        invariant 0 <= k <= |suffix| && from + k <= done <= |log| && (done == applied || done == from + k)
        invariant Abs() == ApplyLog(EMPTY, log[..done])
        invariant lastIncludedIndex <= done
      {
        ghost var op := log[from + k];
        assert suffix[k] == op;
        if from + k < done {
          assert op == log[..done][from + k];
          AgainOne(log[..done], op);
        } else {
          assert log[..done + 1][..done] == log[..done];
        }
        ApplyCommand(from + k + 1, suffix[k]);
        if from + k == done {
          done := done + 1;
        }
        k := k + 1;
      }
      assert log[..done] == log;
    }
  }
}
