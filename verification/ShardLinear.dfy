/** The sharded store as its clients see it: whatever they observe over any run, across all migrations, is linearizable as
    one key/value store. */
module ShardLinear {
  import opened Requests
  import opened ShardGroup
  import opened ShardProtocol
  import opened ShardInvariant
  import opened ShardSafety
  import L = Linearizability
  import K = KvModel
  import EntriesOfHistory

  // ---------------------------------------------------------------- what clients observe

  /** A request of a client, with the events that issued it and that gave the answer it took, and the time it heard the
      answer; `Open` is a write that was executed but whose answer the client has not heard. */
  datatype Call =
    | Call(req: Request, issue: nat, answer: nat, value: string, ret: int)
    | Open(req: Request, issue: nat, ret: int)

  // Event `e` in state `st` answers the request with OK and this value.
  ghost predicate Answers(p: Setup, st: State, e: Event, req: Request, value: string) {
    || (e.Recognise? && e.req == req && value == "")
    || (e.Apply? && e.cmd == ClientOp(req) && 0 < e.g < |st.now| && |st.now[e.g].shards| == p.n > 0
        && GetPutAppend(st.now[e.g], e.g, req).1 == Reply(OK, value))
  }

  // Event `e` executes the request.
  ghost predicate ExecutesIn(p: Setup, st: State, e: Event, req: Request) {
    && e.Apply? && e.cmd == ClientOp(req) && 0 < e.g < |st.now| && |st.now[e.g].shards| == p.n > 0
    && Executes(st.now[e.g], e.g, req)
  }

  ghost predicate CallOk(p: Setup, trace: seq<State>, events: seq<Event>, c: Call)
    requires |trace| == |events| + 1
  {
    && c.issue < |events| && events[c.issue] == Issue(c.req)
    && match c
       case Call(req, issue, answer, value, ret) =>
         answer < |events| && Answers(p, trace[answer], events[answer], req, value) && answer <= ret
       case Open(req, issue, ret) =>
         !req.kind.Get? && Accepted(p, trace[|events|], req) && |events| <= ret
  }

  ghost predicate Accepted(p: Setup, st: State, req: Request) {
    p.n > 0 && KeyToShard(req.key, p.n) < |st.accepted| && req in st.accepted[KeyToShard(req.key, p.n)]
  }

  /** A history of the run: calls on distinct requests, among them every write that was executed. */
  ghost predicate IsHistory(p: Setup, trace: seq<State>, events: seq<Event>, calls: seq<Call>)
    requires |trace| == |events| + 1
  {
    && (forall i :: 0 <= i < |calls| ==> CallOk(p, trace, events, calls[i]))
    && (forall i, j :: 0 <= i < j < |calls| ==> calls[i].req != calls[j].req)
    && (forall req :: Accepted(p, trace[|events|], req) ==> exists i :: 0 <= i < |calls| && calls[i].req == req)
  }

  function OpCode(kind: Kind): nat {
    match kind
    case Get => 0
    case Put => 1
    case Append => 2
  }

  // A call as an operation of the checker: times are positions in the run.
  ghost function Operation(c: Call): K.KvOperation {
    L.Operation(c.req.client, K.KvInput(OpCode(c.req.kind), c.req.key, c.req.value), c.issue,
                K.KvOutput(if c.Call? then c.value else ""), c.ret)
  }

  ghost function Operations(calls: seq<Call>): (ops: seq<K.KvOperation>)
    ensures |ops| == |calls| && forall i :: 0 <= i < |ops| ==> ops[i] == Operation(calls[i])
  {
    seq(|calls|, i requires 0 <= i < |calls| => Operation(calls[i]))
  }

  // ---------------------------------------------------------------- when requests take effect

  lemma RunStep(p: Setup, trace: seq<State>, events: seq<Event>, k: nat)
    requires p.WellFormed() && Run(p, trace, events) && k < |events|
    ensures Step(p, trace[k], events[k], trace[k + 1])
  {
  }

  // What one event adds to the accepted writes.
  lemma AcceptedStep(p: Setup, st: State, e: Event, st': State, s: nat)
    requires p.WellFormed() && Step(p, st, e, st') && s < p.n
    ensures Shaped(p, st')
    ensures st'.accepted[s] == st.accepted[s] || exists req :: ExecutesIn(p, st, e, req) && IsWriteOn(p, req, s)
    ensures forall req :: ExecutesIn(p, st, e, req) && IsWriteOn(p, req, s) ==> st'.accepted[s] == st.accepted[s] + [req]
    ensures forall req :: ExecutesIn(p, st, e, req) && !IsWriteOn(p, req, s) ==> st'.accepted[s] == st.accepted[s]
  {
    if e.Apply? && e.cmd.ClientOp? && st'.accepted[s] != st.accepted[s] {
      assert ExecutesIn(p, st, e, e.cmd.req);
    }
  }

  // Every accepted write was executed by some event.
  lemma {:induction false} ExecutedBefore(p: Setup, trace: seq<State>, events: seq<Event>, i: nat, req: Request) returns (k: nat)
    requires p.WellFormed() && Run(p, trace, events) && i < |trace| && Accepted(p, trace[i], req)
    ensures k < i && ExecutesIn(p, trace[k], events[k], req)
  {
    hide Step, ExecutesIn, Init;
    var s := KeyToShard(req.key, p.n);
    if i == 0 {
      assert false by { NothingAccepted(p, s); }
    } else {
      RunStep(p, trace, events, i - 1);
      assert trace[i - 1 + 1] == trace[i];
      AcceptedGrow(p, trace, events, i - 1, i - 1, s);
      AcceptedStep(p, trace[i - 1], events[i - 1], trace[i], s);
      if req in trace[i - 1].accepted[s] {
        k := ExecutedBefore(p, trace, events, i - 1, req);
      } else {
        var r :| ExecutesIn(p, trace[i - 1], events[i - 1], r) && IsWriteOn(p, r, s);
        k := i - 1;
      }
    }
  }

  lemma NothingAccepted(p: Setup, s: nat)
    requires p.WellFormed() && s < p.n
    ensures Init(p).accepted[s] == []
  {
  }

  // A write is executed once.
  lemma ExecutedOnce(p: Setup, trace: seq<State>, events: seq<Event>, k: nat, k': nat, req: Request)
    requires p.WellFormed() && p.KeepsOwner() && Run(p, trace, events) && k < k' < |events| && !req.kind.Get?
    requires ExecutesIn(p, trace[k], events[k], req)
    ensures !ExecutesIn(p, trace[k'], events[k'], req)
  {
    hide Step, ShardOk, ClientsOk, TablesOk;
    var s := KeyToShard(req.key, p.n);
    RunStep(p, trace, events, k);
    AcceptedStep(p, trace[k], events[k], trace[k + 1], s);
    assert IsWriteOn(p, req, s);
    AcceptedGrow(p, trace, events, k, k, s);
    AcceptedGrow(p, trace, events, k + 1, k', s);
    assert trace[k + 1].accepted[s][|trace[k].accepted[s]|] == req;
    assert req in trace[k'].accepted[s];
    RunInv(p, trace, events, k');
    if ExecutesIn(p, trace[k'], events[k'], req) {
      NewWrite(p, trace[k'], events[k'].g, s, req);
    }
  }

  // A request is issued once, and before it is executed.
  lemma {:induction false} IssuedBefore(p: Setup, trace: seq<State>, events: seq<Event>, i: nat, req: Request) returns (j: nat)
    requires p.WellFormed() && Run(p, trace, events) && i < |trace| && Known(trace[i].issued, req)
    ensures j < i && events[j] == Issue(req)
  {
    hide Init, Step;
    if i == 0 {
      assert false by { NothingIssued(p); }
    } else {
      RunStep(p, trace, events, i - 1);
      assert trace[i - 1 + 1] == trace[i];
      if Known(trace[i - 1].issued, req) {
        j := IssuedBefore(p, trace, events, i - 1, req);
      } else {
        NewlyIssued(p, trace[i - 1], events[i - 1], trace[i], req);
        j := i - 1;
      }
    }
  }

  lemma NothingIssued(p: Setup)
    requires p.WellFormed()
    ensures Init(p).issued == map[]
  {
  }

  lemma NewlyIssued(p: Setup, st: State, e: Event, st': State, req: Request)
    requires p.WellFormed() && Step(p, st, e, st') && Known(st'.issued, req) && !Known(st.issued, req)
    ensures e == Issue(req)
  {
  }

  // Once issued, a request stays issued, and cannot be issued again.
  lemma StaysIssued(p: Setup, st: State, e: Event, st': State, req: Request)
    requires p.WellFormed() && Step(p, st, e, st')
    ensures e == Issue(req) ==> Known(st'.issued, req) && !Known(st.issued, req)
    ensures Known(st.issued, req) ==> Known(st'.issued, req)
  {
  }

  lemma {:induction false} KnownFrom(p: Setup, trace: seq<State>, events: seq<Event>, j: nat, i: nat, req: Request)
    requires p.WellFormed() && Run(p, trace, events) && j < i < |trace| && events[j] == Issue(req)
    ensures Known(trace[i].issued, req)
    decreases i
  {
    hide Step, Known;
    RunStep(p, trace, events, i - 1);
    assert trace[i - 1 + 1] == trace[i];
    StaysIssued(p, trace[i - 1], events[i - 1], trace[i], req);
    if j < i - 1 {
      KnownFrom(p, trace, events, j, i - 1, req);
    }
  }

  lemma IssuedOnce(p: Setup, trace: seq<State>, events: seq<Event>, j: nat, j': nat, req: Request)
    requires p.WellFormed() && Run(p, trace, events) && j < |events| && j' < |events|
    requires events[j] == Issue(req) && events[j'] == Issue(req)
    ensures j == j'
  {
    hide Step, Known;
    RunStep(p, trace, events, j);
    RunStep(p, trace, events, j');
    StaysIssued(p, trace[j], events[j], trace[j + 1], req);
    StaysIssued(p, trace[j'], events[j'], trace[j' + 1], req);
    if j < j' {
      KnownFrom(p, trace, events, j, j', req);
    } else if j' < j {
      KnownFrom(p, trace, events, j', j, req);
    }
  }

  // ---------------------------------------------------------------- the point of a call

  // Where the call takes effect: a read where its answer is produced, a write where it is executed.
  ghost predicate PointOf(p: Setup, trace: seq<State>, events: seq<Event>, c: Call, k: nat)
    requires |trace| == |events| + 1
  {
    && c.issue < k < |events| && k <= c.ret && ExecutesIn(p, trace[k], events[k], c.req)
    && (c.req.kind.Get? ==> c.Call? && k == c.answer)
  }

  lemma IssueFirst(p: Setup, trace: seq<State>, events: seq<Event>, k: nat, req: Request, issue: nat)
    requires p.WellFormed() && p.KeepsOwner() && Run(p, trace, events) && k < |events| && ExecutesIn(p, trace[k], events[k], req)
    requires issue < |events| && events[issue] == Issue(req)
    ensures issue < k
  {
    hide Step, ShardOk, ClientsOk;
    RunInv(p, trace, events, k);
    RunStep(p, trace, events, k);
    assert Known(trace[k].issued, req) by { StepKnown(p, trace[k], events[k], trace[k + 1]); }
    var j := IssuedBefore(p, trace, events, k, req);
    IssuedOnce(p, trace, events, j, issue, req);
  }

  lemma StepKnown(p: Setup, st: State, e: Event, st': State)
    requires p.WellFormed() && Inv(p, st) && Step(p, st, e, st') && e.Apply? && e.cmd.ClientOp?
    ensures Known(st.issued, e.cmd.req)
  {
    hide ShardOk, ClientsOk;
  }

  // An answer to a write means that it was executed by then.
  lemma AnsweredWrite(p: Setup, trace: seq<State>, events: seq<Event>, a: nat, req: Request, value: string)
    requires p.WellFormed() && p.KeepsOwner() && Run(p, trace, events) && a < |events| && !req.kind.Get?
    requires Answers(p, trace[a], events[a], req, value)
    ensures Accepted(p, trace[a + 1], req)
  {
    hide ShardOk, ClientsOk, TablesOk, GroupsOk;
    RunStep(p, trace, events, a);
    assert req in trace[a + 1].ok by { AnswerIsOk(p, trace[a], events[a], trace[a + 1], req, value); }
    OkMeansOnce(p, trace, events, a + 1, req);
  }

  lemma AnswerIsOk(p: Setup, st: State, e: Event, st': State, req: Request, value: string)
    requires p.WellFormed() && Step(p, st, e, st') && Answers(p, st, e, req, value)
    ensures req in st'.ok
  {
  }

  lemma FindPoint(p: Setup, trace: seq<State>, events: seq<Event>, c: Call) returns (k: nat)
    requires p.WellFormed() && p.KeepsOwner() && Run(p, trace, events) && CallOk(p, trace, events, c)
    ensures PointOf(p, trace, events, c, k)
  {
    hide Step, Answers, ExecutesIn, Init;
    if c.req.kind.Get? {
      k := c.answer;
      assert ExecutesIn(p, trace[k], events[k], c.req) by { GetAnswered(p, trace, events, k, c.req, c.value); }
    } else if c.Call? {
      AnsweredWrite(p, trace, events, c.answer, c.req, c.value);
      k := ExecutedBefore(p, trace, events, c.answer + 1, c.req);
    } else {
      k := ExecutedBefore(p, trace, events, |events|, c.req);
    }
    IssueFirst(p, trace, events, k, c.req, c.issue);
  }

  lemma GetAnswered(p: Setup, trace: seq<State>, events: seq<Event>, k: nat, req: Request, value: string)
    requires p.WellFormed() && Run(p, trace, events) && k < |events| && req.kind.Get?
    requires Answers(p, trace[k], events[k], req, value)
    ensures ExecutesIn(p, trace[k], events[k], req)
  {
    RunStep(p, trace, events, k);
  }

  // What an answered read returns.
  lemma GetValue(p: Setup, trace: seq<State>, events: seq<Event>, k: nat, req: Request, value: string)
    requires p.WellFormed() && p.KeepsOwner() && Run(p, trace, events) && k < |events| && req.kind.Get?
    requires Answers(p, trace[k], events[k], req, value)
    ensures KeyToShard(req.key, p.n) < |trace[k].accepted|
    ensures value == Lookup(Replay(trace[k].accepted[KeyToShard(req.key, p.n)]), req.key)
  {
    hide Replay;
    RunStep(p, trace, events, k);
    GetReadsAll(p, trace, events, k, events[k].g, req);
  }

  // ---------------------------------------------------------------- calls in the order of their points

  // The indices with a point below `k`, in the order of the points.
  ghost function InOrder(points: seq<nat>, k: nat): (order: seq<nat>)
    ensures forall x :: 0 <= x < |order| ==> order[x] < |points| && points[order[x]] < k
  {
    if k == 0 then []
    else if i: nat :| i < |points| && points[i] == k - 1 then InOrder(points, k - 1) + [i]
    else InOrder(points, k - 1)
  }

  ghost predicate Apart(points: seq<nat>) {
    forall i, j :: 0 <= i < j < |points| ==> points[i] != points[j]
  }

  ghost predicate SortedBy(points: seq<nat>, order: seq<nat>)
    requires forall x :: 0 <= x < |order| ==> order[x] < |points|
  {
    forall x, y :: 0 <= x < y < |order| ==> points[order[x]] < points[order[y]]
  }

  lemma SortedNext(points: seq<nat>, order: seq<nat>, i: nat)
    requires (forall x :: 0 <= x < |order| ==> order[x] < |points|) && i < |points| && SortedBy(points, order)
    requires forall x :: 0 <= x < |order| ==> points[order[x]] < points[i]
    ensures SortedBy(points, order + [i])
  {
    var longer := order + [i];
    forall x, y | 0 <= x < y < |longer| ensures points[longer[x]] < points[longer[y]] {
      assert longer[x] == order[x];
    }
  }

  lemma {:induction false} InOrderSorted(points: seq<nat>, k: nat)
    requires Apart(points)
    ensures SortedBy(points, InOrder(points, k))
    ensures forall i: nat :: i < |points| && points[i] < k ==> i in InOrder(points, k)
  {
    hide SortedBy, InOrder;
    if k == 0 {
      assert SortedBy(points, InOrder(points, 0)) by { NoneSorted(points); }
    } else {
      InOrderSorted(points, k - 1);
      if i: nat :| i < |points| && points[i] == k - 1 {
        NextInOrder(points, k - 1, i);
        SortedNext(points, InOrder(points, k - 1), i);
        assert forall j: nat :: j < |points| && points[j] == k - 1 ==> j == i;
      } else {
        NoneInOrder(points, k - 1);
      }
    }
  }

  lemma NoneSorted(points: seq<nat>)
    ensures SortedBy(points, InOrder(points, 0))
  {
  }

  // What the order grows by at point `k`.
  lemma NextInOrder(points: seq<nat>, k: nat, i: nat)
    requires Apart(points) && i < |points| && points[i] == k
    ensures InOrder(points, k + 1) == InOrder(points, k) + [i]
  {
    assert forall j: nat :: j < |points| && points[j] == k ==> j == i;
  }

  lemma NoneInOrder(points: seq<nat>, k: nat)
    requires forall i :: 0 <= i < |points| ==> points[i] != k
    ensures InOrder(points, k + 1) == InOrder(points, k)
  {
  }

  // ---------------------------------------------------------------- the store after some operations

  ghost function StoreAfter(ops: seq<K.KvOperation>, order: seq<nat>): map<string, string>
    requires forall x :: 0 <= x < |order| ==> order[x] < |ops|
  {
    if order == [] then map[]
    else L.After(K.Store(), ops[order[|order| - 1]], StoreAfter(ops, order[..|order| - 1]))
  }

  ghost function StoreFrom(ops: seq<K.KvOperation>, order: seq<nat>, st: map<string, string>): map<string, string>
    requires forall x :: 0 <= x < |order| ==> order[x] < |ops|
  {
    if order == [] then st else StoreFrom(ops, order[1..], L.After(K.Store(), ops[order[0]], st))
  }

  lemma {:induction false} StoreFromNext(ops: seq<K.KvOperation>, order: seq<nat>, st: map<string, string>, i: nat)
    requires (forall x :: 0 <= x < |order| ==> order[x] < |ops|) && i < |ops|
    ensures StoreFrom(ops, order + [i], st) == L.After(K.Store(), ops[i], StoreFrom(ops, order, st))
    decreases |order|
  {
    if order == [] {
      assert (order + [i])[1..] == [];
    } else {
      assert (order + [i])[1..] == order[1..] + [i];
      StoreFromNext(ops, order[1..], L.After(K.Store(), ops[order[0]], st), i);
    }
  }

  lemma {:induction false} StoreFromAfter(ops: seq<K.KvOperation>, order: seq<nat>)
    requires forall x :: 0 <= x < |order| ==> order[x] < |ops|
    ensures StoreFrom(ops, order, map[]) == StoreAfter(ops, order)
  {
    if order != [] {
      var rest, i := order[..|order| - 1], order[|order| - 1];
      assert order == rest + [i];
      StoreFromAfter(ops, rest);
      StoreFromNext(ops, rest, map[], i);
    }
  }

  lemma {:induction false} LegalNext(ops: seq<K.KvOperation>, order: seq<nat>, st: map<string, string>, i: nat)
    requires (forall x :: 0 <= x < |order| ==> order[x] < |ops|) && i < |ops|
    requires L.Legal(K.Store(), ops, order, st) && L.Accepts(K.Store(), ops[i], StoreFrom(ops, order, st))
    ensures L.Legal(K.Store(), ops, order + [i], st)
    decreases |order|
  {
    if order == [] {
      assert (order + [i])[1..] == [];
    } else {
      assert (order + [i])[1..] == order[1..] + [i];
      LegalNext(ops, order[1..], L.After(K.Store(), ops[order[0]], st), i);
    }
  }

  // ---------------------------------------------------------------- the linearization

  // The store holds, for every key, what the accepted writes left.
  ghost predicate Mirrors(p: Setup, st: State, store: map<string, string>)
    requires p.WellFormed() && Shaped(p, st)
  {
    forall key :: Lookup(store, key) == Lookup(Replay(st.accepted[KeyToShard(key, p.n)]), key)
  }

  ghost predicate PointsOk(p: Setup, trace: seq<State>, events: seq<Event>, calls: seq<Call>, points: seq<nat>)
    requires |trace| == |events| + 1
  {
    && |points| == |calls| && Apart(points)
    && (forall i :: 0 <= i < |calls| ==> PointOf(p, trace, events, calls[i], points[i]))
  }

  lemma {:induction false} FindPoints(p: Setup, trace: seq<State>, events: seq<Event>, calls: seq<Call>) returns (points: seq<nat>)
    requires p.WellFormed() && p.KeepsOwner() && Run(p, trace, events)
    requires forall i :: 0 <= i < |calls| ==> CallOk(p, trace, events, calls[i])
    ensures |points| == |calls| && forall i :: 0 <= i < |calls| ==> PointOf(p, trace, events, calls[i], points[i])
  {
    hide Step, Init, CallOk, PointOf;
    if calls == [] {
      points := [];
    } else {
      var rest := FindPoints(p, trace, events, calls[..|calls| - 1]);
      var k := FindPoint(p, trace, events, calls[|calls| - 1]);
      points := rest + [k];
    }
  }

  // One event executes one request.
  lemma PointsApart(p: Setup, trace: seq<State>, events: seq<Event>, calls: seq<Call>, points: seq<nat>)
    requires |trace| == |events| + 1 && |points| == |calls|
    requires forall i :: 0 <= i < |calls| ==> PointOf(p, trace, events, calls[i], points[i])
    requires forall i, j :: 0 <= i < j < |calls| ==> calls[i].req != calls[j].req
    ensures PointsOk(p, trace, events, calls, points)
  {
    forall i, j | 0 <= i < j < |points| ensures points[i] != points[j] {
      assert PointOf(p, trace, events, calls[i], points[i]) && PointOf(p, trace, events, calls[j], points[j]);
    }
  }

  // Taking the call whose point is event `k` does to the store what the event does to the shard.
  lemma TakeCall(p: Setup, trace: seq<State>, events: seq<Event>, c: Call, k: nat, store: map<string, string>)
    requires p.WellFormed() && p.KeepsOwner() && Run(p, trace, events) && CallOk(p, trace, events, c) && PointOf(p, trace, events, c, k)
    requires Shaped(p, trace[k]) && Shaped(p, trace[k + 1]) && Mirrors(p, trace[k], store)
    ensures L.Accepts(K.Store(), Operation(c), store)
    ensures Mirrors(p, trace[k + 1], L.After(K.Store(), Operation(c), store))
  {
    hide Step, Replay, ExecutesIn, Answers, Operation, Lookup, Write;
    RunStep(p, trace, events, k);
    var req := c.req;
    var s := KeyToShard(req.key, p.n);
    if req.kind.Get? {
      GetValue(p, trace, events, k, req, c.value);
      assert Lookup(store, req.key) == Lookup(Replay(trace[k].accepted[s]), req.key);
    }
    StoreAccepts(c, store);
    forall key ensures
      Lookup(L.After(K.Store(), Operation(c), store), key) == Lookup(Replay(trace[k + 1].accepted[KeyToShard(key, p.n)]), key)
    {
      TakeKey(p, trace[k], events[k], trace[k + 1], c, store, key);
    }
  }

  // A step of the store accepts every write, and a read that returns the value.
  lemma StoreAccepts(c: Call, store: map<string, string>)
    requires c.req.kind.Get? ==> c.Call? && c.value == Lookup(store, c.req.key)
    ensures L.Accepts(K.Store(), Operation(c), store)
  {
  }

  lemma StoreWrites(c: Call, store: map<string, string>, key: string)
    ensures Lookup(L.After(K.Store(), Operation(c), store), key) == Lookup(Write(store, c.req), key)
    ensures key != c.req.key || c.req.kind.Get? ==> Lookup(Write(store, c.req), key) == Lookup(store, key)
  {
  }

  lemma WriteAlike(db: map<string, string>, db': map<string, string>, req: Request, key: string)
    requires Lookup(db, key) == Lookup(db', key) && Lookup(db, req.key) == Lookup(db', req.key)
    ensures Lookup(Write(db, req), key) == Lookup(Write(db', req), key)
  {
  }

  lemma TakeKey(p: Setup, st: State, e: Event, st': State, c: Call, store: map<string, string>, key: string)
    requires p.WellFormed() && Step(p, st, e, st') && Shaped(p, st) && Shaped(p, st') && Mirrors(p, st, store)
    requires ExecutesIn(p, st, e, c.req)
    ensures Lookup(L.After(K.Store(), Operation(c), store), key) == Lookup(Replay(st'.accepted[KeyToShard(key, p.n)]), key)
  {
    hide Step, Replay, ExecutesIn, Operation, Lookup, Write;
    var req, s := c.req, KeyToShard(key, p.n);
    var ws := st.accepted[s];
    assert Lookup(store, key) == Lookup(Replay(ws), key);
    StoreWrites(c, store, key);
    AcceptedStep(p, st, e, st', s);
    if IsWriteOn(p, req, s) {
      assert Lookup(store, req.key) == Lookup(Replay(ws), req.key);
      ReplayOne(ws, req);
      WriteAlike(store, Replay(ws), req, key);
    }
  }

  lemma ReplayOne(ws: seq<Request>, req: Request)
    ensures Replay(ws + [req]) == Write(Replay(ws), req)
  {
    assert (ws + [req])[..|ws|] == ws;
  }

  // An event that is nobody's point changes no shard.
  lemma TakeNone(p: Setup, trace: seq<State>, events: seq<Event>, calls: seq<Call>, points: seq<nat>, k: nat, store: map<string, string>)
    requires p.WellFormed() && p.KeepsOwner() && Run(p, trace, events) && IsHistory(p, trace, events, calls)
    requires PointsOk(p, trace, events, calls, points) && k < |events| && forall i :: 0 <= i < |points| ==> points[i] != k
    requires Shaped(p, trace[k]) && Shaped(p, trace[k + 1]) && Mirrors(p, trace[k], store)
    ensures Mirrors(p, trace[k + 1], store)
  {
    hide Step, Replay, ExecutesIn, CallOk;
    RunStep(p, trace, events, k);
    forall s: nat | s < p.n ensures trace[k + 1].accepted[s] == trace[k].accepted[s] {
      AcceptedStep(p, trace[k], events[k], trace[k + 1], s);
      if req :| ExecutesIn(p, trace[k], events[k], req) && IsWriteOn(p, req, s) {
        WriteHasPoint(p, trace, events, calls, points, k, req, s);
      }
    }
  }

  // The point of an executed write is the event that executed it.
  lemma WriteHasPoint(p: Setup, trace: seq<State>, events: seq<Event>, calls: seq<Call>, points: seq<nat>, k: nat, req: Request, s: nat)
    requires p.WellFormed() && p.KeepsOwner() && Run(p, trace, events) && IsHistory(p, trace, events, calls)
    requires PointsOk(p, trace, events, calls, points) && k < |events| && s < p.n
    requires ExecutesIn(p, trace[k], events[k], req) && IsWriteOn(p, req, s)
    ensures exists i :: 0 <= i < |points| && points[i] == k
  {
    hide Step, ExecutesIn, CallOk;
    RunStep(p, trace, events, k);
    AcceptedStep(p, trace[k], events[k], trace[k + 1], s);
    AcceptedGrow(p, trace, events, k, k, s);
    AcceptedGrow(p, trace, events, k + 1, |events|, s);
    assert trace[k + 1].accepted[s][|trace[k].accepted[s]|] == req;
    assert Accepted(p, trace[|events|], req);
    var i :| 0 <= i < |calls| && calls[i].req == req;
    assert PointOf(p, trace, events, calls[i], points[i]);
    if points[i] < k {
      ExecutedOnce(p, trace, events, points[i], k, req);
    } else if k < points[i] {
      ExecutedOnce(p, trace, events, k, points[i], req);
    }
  }

  lemma {:induction false} LegalUpTo(p: Setup, trace: seq<State>, events: seq<Event>, calls: seq<Call>, points: seq<nat>, k: nat)
    requires p.WellFormed() && p.KeepsOwner() && Run(p, trace, events) && IsHistory(p, trace, events, calls)
    requires PointsOk(p, trace, events, calls, points) && k <= |events|
    ensures Shaped(p, trace[k]) && Mirrors(p, trace[k], StoreAfter(Operations(calls), InOrder(points, k)))
    ensures L.Legal(K.Store(), Operations(calls), InOrder(points, k), map[])
  {
    hide Step, Init, Mirrors, CallOk, PointOf, IsHistory, InOrder, L.Legal, StoreFrom, Apart;
    var ops := Operations(calls);
    if k == 0 {
      StartMirrors(p, trace, events);
      NoneYet(ops, points);
    } else {
      LegalUpTo(p, trace, events, calls, points, k - 1);
      ShapedAt(p, trace, events, k);
      var order := InOrder(points, k - 1);
      var store := StoreAfter(ops, order);
      if i: nat :| i < |points| && points[i] == k - 1 {
        HistoryCall(p, trace, events, calls, i);
        assert PointOf(p, trace, events, calls[i], points[i]);
        TakeCall(p, trace, events, calls[i], k - 1, store);
        NextInOrder(points, k - 1, i);
        OneMore(ops, order, i);
      } else {
        TakeNone(p, trace, events, calls, points, k - 1, store);
        NoneInOrder(points, k - 1);
      }
    }
  }

  lemma NoneYet(ops: seq<K.KvOperation>, points: seq<nat>)
    ensures InOrder(points, 0) == [] && L.Legal(K.Store(), ops, [], map[]) && StoreAfter(ops, []) == map[]
  {
  }

  lemma OneMore(ops: seq<K.KvOperation>, order: seq<nat>, i: nat)
    requires (forall x :: 0 <= x < |order| ==> order[x] < |ops|) && i < |ops|
    requires L.Legal(K.Store(), ops, order, map[]) && L.Accepts(K.Store(), ops[i], StoreAfter(ops, order))
    ensures L.Legal(K.Store(), ops, order + [i], map[])
    ensures StoreAfter(ops, order + [i]) == L.After(K.Store(), ops[i], StoreAfter(ops, order))
  {
    StoreFromAfter(ops, order);
    LegalNext(ops, order, map[], i);
    assert (order + [i])[..|order|] == order;
  }

  lemma HistoryCall(p: Setup, trace: seq<State>, events: seq<Event>, calls: seq<Call>, i: nat)
    requires |trace| == |events| + 1 && IsHistory(p, trace, events, calls) && i < |calls|
    ensures CallOk(p, trace, events, calls[i])
  {
  }

  lemma ShapedAt(p: Setup, trace: seq<State>, events: seq<Event>, k: nat)
    requires p.WellFormed() && Run(p, trace, events) && k < |trace|
    ensures Shaped(p, trace[k])
  {
    AcceptedGrow(p, trace, events, k, k, 0);
  }

  lemma StartMirrors(p: Setup, trace: seq<State>, events: seq<Event>)
    requires p.WellFormed() && Run(p, trace, events)
    ensures Shaped(p, trace[0]) && Mirrors(p, trace[0], map[])
  {
    forall key ensures Lookup(map[], key) == Lookup(Replay(Init(p).accepted[KeyToShard(key, p.n)]), key) {
      NothingAccepted(p, KeyToShard(key, p.n));
    }
  }

  /** Whatever clients observe in any run of the sharded store, over all groups, shards and configuration changes, is
      linearizable as one key/value store, and so on every key by itself: the checker accepts it. */
  lemma StoreIsLinearizable(p: Setup, trace: seq<State>, events: seq<Event>, calls: seq<Call>)
    requires p.WellFormed() && p.KeepsOwner() && Run(p, trace, events) && IsHistory(p, trace, events, calls)
    ensures EntriesOfHistory.Timed(Operations(calls))
    ensures L.Linearizable(K.Store(), Operations(calls)) && K.LinearizableByKey(Operations(calls))
  {
    hide K.LinearizableByKey, Step, Init, CallOk, Mirrors, L.Legal, StoreAfter;
    var ops := Operations(calls);
    var points := FindPoints(p, trace, events, calls);
    PointsApart(p, trace, events, calls, points);
    LegalUpTo(p, trace, events, calls, points, |events|);
    var order := InOrder(points, |events|);
    InOrderSorted(points, |events|);
    forall i: nat | i < |points| ensures points[i] < |events| && ops[i].call < points[i] <= ops[i].ret {
      assert PointOf(p, trace, events, calls[i], points[i]);
    }
    RespectsPoints(ops, order, points);
    assert L.Lists(L.All(|ops|), order);
    assert L.IsLinearization(K.Store(), ops, L.All(|ops|), map[], order);
    K.Locality(ops);
  }

  // Points between calls and returns respect real time.
  lemma RespectsPoints(ops: seq<K.KvOperation>, order: seq<nat>, points: seq<nat>)
    requires |points| == |ops| && forall x :: 0 <= x < |order| ==> order[x] < |ops|
    requires forall i :: 0 <= i < |ops| ==> ops[i].call < points[i] <= ops[i].ret
    requires SortedBy(points, order)
    ensures L.RespectsTime(ops, order)
  {
  }
}
