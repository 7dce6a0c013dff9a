/** The key/value model the checker is used with, and why its histories may be checked one key at a time. */
module KvModel {
  import opened Linearizability
  import opened Search
  import opened EntriesOfHistory
  import opened Requests
  import Single = CheckSingle

  datatype KvInput = KvInput(op: nat, key: string, value: string)
  datatype KvOutput = KvOutput(value: string)

  type KvOperation = Operation<KvInput, KvOutput>

  // One step on one key's value: get, put, append, and append that returns the value before it.
  function Step(st: string, inp: KvInput, out: KvOutput): (bool, string) {
    if inp.op == 0 then (out.value == st, st)
    else if inp.op == 1 then (true, inp.value)
    else if inp.op == 2 then (true, st + inp.value)
    else (out.value == st, st + inp.value)
  }

  // The model of a single key.
  function OneKey(): Model<string, KvInput, KvOutput> {
    Model("", Step, (s: string, t: string) => s == t)
  }

  // The store that clients see: every key at once.
  function StoreStep(st: map<string, string>, inp: KvInput, out: KvOutput): (bool, map<string, string>) {
    var r := Step(Lookup(st, inp.key), inp, out);
    (r.0, st[inp.key := r.1])
  }

  function Store(): Model<map<string, string>, KvInput, KvOutput> {
    Model(map[], StoreStep, (s: map<string, string>, t: map<string, string>) => s == t)
  }

  lemma OneKeyCongruent()
    ensures Congruent(OneKey())
  {
  }

  // ---------------------------------------------------------------- what the model means

  // The value that the listed operations leave at a key: a put replaces it, an append extends it.
  ghost function ValueLeft(ops: seq<KvOperation>, order: seq<nat>, k: string): string
    requires forall x :: 0 <= x < |order| ==> order[x] < |ops|
  {
    if order == [] then ""
    else
      var was, op := ValueLeft(ops, order[..|order| - 1], k), ops[order[|order| - 1]].input;
      if op.key != k || op.op == 0 then was else if op.op == 1 then op.value else was + op.value
  }

  // A get, or an append that returns the value before it.
  ghost predicate Returns(inp: KvInput) {
    inp.op != 1 && inp.op != 2
  }

  ghost predicate RightAt(ops: seq<KvOperation>, order: seq<nat>, x: nat)
    requires x < |order| && forall y :: 0 <= y < |order| ==> order[y] < |ops|
  {
    var op := ops[order[x]];
    Returns(op.input) ==> op.output.value == ValueLeft(ops, order[..x], op.input.key)
  }

  // Every operation that returns a value returns what the operations before it have left at its key.
  ghost predicate ReadsRight(ops: seq<KvOperation>, order: seq<nat>)
    requires forall x :: 0 <= x < |order| ==> order[x] < |ops|
  {
    forall x :: 0 <= x < |order| ==> RightAt(ops, order, x)
  }

  // Some order of all operations respects time and explains every returned value.
  ghost predicate Explained(ops: seq<KvOperation>) {
    exists order :: Lists(All(|ops|), order) && RespectsTime(ops, order) && ReadsRight(ops, order)
  }

  lemma {:induction false} LegalFrom(ops: seq<KvOperation>, order: seq<nat>, x: nat, st: map<string, string>)
    requires x <= |order| && forall y :: 0 <= y < |order| ==> order[y] < |ops|
    requires forall k :: Lookup(st, k) == ValueLeft(ops, order[..x], k)
    ensures Legal(Store(), ops, order[x..], st) <==> forall y :: x <= y < |order| ==> RightAt(ops, order, y)
    decreases |order| - x
  {
    if x < |order| {
      var op := ops[order[x]];
      var st' := After(Store(), op, st);
      assert order[x..][0] == order[x] && order[x..][1..] == order[x + 1..];
      assert order[..x + 1][..x] == order[..x];
      assert Accepts(Store(), op, st) <==> RightAt(ops, order, x);
      LegalFrom(ops, order, x + 1, st');
    }
  }

  lemma LegalExactly(ops: seq<KvOperation>, order: seq<nat>)
    requires forall x :: 0 <= x < |order| ==> order[x] < |ops|
    ensures Legal(Store(), ops, order, map[]) <==> ReadsRight(ops, order)
  {
    assert order[..0] == [] && order[0..] == order;
    LegalFrom(ops, order, 0, map[]);
  }

  /** A history is linearizable exactly when some order of its operations respects time and every operation that returns
      a value returns what the operations before it on its key have left, puts replacing and appends extending. */
  lemma LinearizableMeans(ops: seq<KvOperation>)
    ensures Linearizable(Store(), ops) <==> Explained(ops)
  {
    hide Legal, ReadsRight, RespectsTime;
    forall order | Lists(All(|ops|), order) ensures Legal(Store(), ops, order, map[]) <==> ReadsRight(ops, order) {
      LegalExactly(ops, order);
    }
    if order :| IsLinearization(Store(), ops, All(|ops|), map[], order) {
      assert ReadsRight(ops, order);
    }
    if order :| Lists(All(|ops|), order) && RespectsTime(ops, order) && ReadsRight(ops, order) {
      assert IsLinearization(Store(), ops, All(|ops|), map[], order);
    }
  }

  // ---------------------------------------------------------------- locality

  // The operations of `u` on key `k`.
  ghost function OnKey(ops: seq<KvOperation>, u: set<nat>, k: string): (v: set<nat>)
    requires Within(|ops|, u)
    ensures v <= u
  {
    set a | a in u && ops[a].input.key == k
  }

  // Each key can be completed by itself.
  ghost predicate EachKey(ops: seq<KvOperation>, u: set<nat>, st: map<string, string>)
    requires Within(|ops|, u)
  {
    forall k :: Completable(OneKey(), ops, OnKey(ops, u, k), Lookup(st, k))
  }

  lemma WithoutOne(ops: seq<KvOperation>, u: set<nat>, a: nat, k: string)
    requires Within(|ops|, u) && a in u
    ensures OnKey(ops, u - {a}, k) == if ops[a].input.key == k then OnKey(ops, u, k) - {a} else OnKey(ops, u, k)
  {
  }

  lemma OthersUntouched(st: map<string, string>, op: KvOperation, k: string)
    ensures Lookup(After(Store(), op, st), k) ==
      if k == op.input.key then After(OneKey(), op, Lookup(st, k)) else Lookup(st, k)
  {
  }

  lemma {:induction false} StoreToKeys(ops: seq<KvOperation>, u: set<nat>, st: map<string, string>)
    requires Within(|ops|, u) && Completable(Store(), ops, u, st)
    ensures EachKey(ops, u, st)
    decreases |u|
  {
    if u != {} {
      var a: nat :| Minimal(ops, u, a) && Viable(Store(), ops, u, st, a);
      var st' := After(Store(), ops[a], st);
      Smaller(u, a);
      StoreToKeys(ops, u - {a}, st');
      forall k ensures Completable(OneKey(), ops, OnKey(ops, u, k), Lookup(st, k)) {
        WithoutOne(ops, u, a, k);
        OthersUntouched(st, ops[a], k);
        assert Completable(OneKey(), ops, OnKey(ops, u - {a}, k), Lookup(st', k));
        if k == ops[a].input.key {
          KeyStep(ops, u, st, a);
        }
      }
    }
  }

  lemma KeyStep(ops: seq<KvOperation>, u: set<nat>, st: map<string, string>, a: nat)
    requires Within(|ops|, u) && Minimal(ops, u, a) && Accepts(Store(), ops[a], st)
    requires Completable(OneKey(), ops, OnKey(ops, u - {a}, ops[a].input.key), Lookup(After(Store(), ops[a], st), ops[a].input.key))
    ensures Completable(OneKey(), ops, OnKey(ops, u, ops[a].input.key), Lookup(st, ops[a].input.key))
  {
    var k := ops[a].input.key;
    WithoutOne(ops, u, a, k);
    OthersUntouched(st, ops[a], k);
    assert Minimal(ops, OnKey(ops, u, k), a) && Viable(OneKey(), ops, OnKey(ops, u, k), Lookup(st, k), a);
  }

  lemma {:induction false} EarliestReturn(ops: seq<KvOperation>, u: set<nat>) returns (m: nat)
    requires Within(|ops|, u) && u != {}
    ensures m in u && forall b :: b in u ==> ops[m].ret <= ops[b].ret
    decreases |u|
  {
    m :| m in u;
    if u != {m} {
      Smaller(u, m);
      assert u - {m} != {};
      var n := EarliestReturn(ops, u - {m});
      assert forall b :: b in u ==> b == m || b in u - {m};
      if ops[n].ret < ops[m].ret {
        m := n;
      }
    }
  }

  // Taking the first operation of the key that holds the earliest return never overtakes another key.
  lemma MinimalInAll(ops: seq<KvOperation>, u: set<nat>, m: nat, a: nat)
    requires Within(|ops|, u) && Timed(ops) && m in u && (forall b :: b in u ==> ops[m].ret <= ops[b].ret)
    requires Minimal(ops, OnKey(ops, u, ops[m].input.key), a)
    ensures Minimal(ops, u, a)
  {
    assert m in OnKey(ops, u, ops[m].input.key);
    assert ops[a].call <= ops[m].ret;
  }

  lemma {:induction false} KeysToStore(ops: seq<KvOperation>, u: set<nat>, st: map<string, string>)
    requires Within(|ops|, u) && Timed(ops) && EachKey(ops, u, st)
    ensures Completable(Store(), ops, u, st)
    decreases |u|
  {
    if u != {} {
      var m := EarliestReturn(ops, u);
      var k := ops[m].input.key;
      assert Completable(OneKey(), ops, OnKey(ops, u, k), Lookup(st, k));
      assert m in OnKey(ops, u, k);
      var a: nat :| Minimal(ops, OnKey(ops, u, k), a) && Viable(OneKey(), ops, OnKey(ops, u, k), Lookup(st, k), a);
      MinimalInAll(ops, u, m, a);
      Smaller(u, a);
      RestOfKeys(ops, u, st, a);
      KeysToStore(ops, u - {a}, After(Store(), ops[a], st));
      assert Viable(Store(), ops, u, st, a);
    }
  }

  lemma RestOfKeys(ops: seq<KvOperation>, u: set<nat>, st: map<string, string>, a: nat)
    requires Within(|ops|, u) && EachKey(ops, u, st) && a in u
    requires Viable(OneKey(), ops, OnKey(ops, u, ops[a].input.key), Lookup(st, ops[a].input.key), a)
    ensures EachKey(ops, u - {a}, After(Store(), ops[a], st))
  {
    hide Completable;
    var st' := After(Store(), ops[a], st);
    forall k ensures Completable(OneKey(), ops, OnKey(ops, u - {a}, k), Lookup(st', k)) {
      WithoutOne(ops, u, a, k);
      OthersUntouched(st, ops[a], k);
      assert Completable(OneKey(), ops, OnKey(ops, u, k), Lookup(st, k));
    }
  }

  // ---------------------------------------------------------------- one history for each key

  // The indices of the first `n` operations that are on key `k`.
  ghost function Indices(ops: seq<KvOperation>, n: nat, k: string): (f: seq<nat>)
    requires n <= |ops|
    ensures forall i :: 0 <= i < |f| ==> f[i] < n && ops[f[i]].input.key == k
    ensures forall i, j :: 0 <= i < j < |f| ==> f[i] < f[j]
    ensures forall a :: 0 <= a < n && ops[a].input.key == k ==> a in f
  {
    if n == 0 then []
    else if ops[n - 1].input.key == k then Indices(ops, n - 1, k) + [n - 1]
    else Indices(ops, n - 1, k)
  }

  // The first `n` operations on key `k`, in order.
  ghost function Filter(ops: seq<KvOperation>, n: nat, k: string): seq<KvOperation>
    requires n <= |ops|
  {
    if n == 0 then []
    else if ops[n - 1].input.key == k then Filter(ops, n - 1, k) + [ops[n - 1]]
    else Filter(ops, n - 1, k)
  }

  lemma {:induction false} FilterIndices(ops: seq<KvOperation>, n: nat, k: string)
    requires n <= |ops|
    ensures |Filter(ops, n, k)| == |Indices(ops, n, k)|
    ensures forall i :: 0 <= i < |Filter(ops, n, k)| ==> Filter(ops, n, k)[i] == ops[Indices(ops, n, k)[i]]
  {
    if n > 0 {
      FilterIndices(ops, n - 1, k);
    }
  }

  lemma FilterOnKey(ops: seq<KvOperation>, k: string)
    ensures Linearizable(OneKey(), Filter(ops, |ops|, k)) <==> Completable(OneKey(), ops, OnKey(ops, All(|ops|), k), "")
  {
    hide Completable, Linearizable, Indices, Filter, OneKey;
    var f, sub := Indices(ops, |ops|, k), Filter(ops, |ops|, k);
    FilterIndices(ops, |ops|, k);
    assert Embeds(sub, ops, f);
    ImageOfIndices(ops, k);
    EmbeddedCompletable(OneKey(), sub, ops, f, All(|sub|), OneKey().init);
    CompletableIffLinearizable(OneKey(), sub);
    assert OneKey().init == "" by { EmptyStart(); }
  }

  lemma EmptyStart()
    ensures OneKey().init == ""
  {
  }

  lemma ImageOfIndices(ops: seq<KvOperation>, k: string)
    ensures Image(Indices(ops, |ops|, k), All(|Indices(ops, |ops|, k)|)) == OnKey(ops, All(|ops|), k)
  {
    hide Indices;
    var f := Indices(ops, |ops|, k);
    forall a | a in OnKey(ops, All(|ops|), k) ensures a in Image(f, All(|f|)) {
      assert a in f;
      var i: nat :| i < |f| && f[i] == a;
      assert i in All(|f|);
    }
  }

  ghost predicate LinearizableByKey(ops: seq<KvOperation>) {
    forall k :: Linearizable(OneKey(), Filter(ops, |ops|, k))
  }

  /** A history of the whole store is linearizable exactly when its history on each key is: what the comment on
      `Partition` asks of a partition. */
  lemma Locality(ops: seq<KvOperation>)
    requires Timed(ops)
    ensures Linearizable(Store(), ops) <==> LinearizableByKey(ops)
  {
    hide Linearizable, Completable, LinearizableByKey, EachKey;
    CompletableIffLinearizable(Store(), ops);
    ByKey(ops);
    var u := All(|ops|);
    if EachKey(ops, u, map[]) {
      KeysToStore(ops, u, map[]);
    }
    if Completable(Store(), ops, u, map[]) {
      StoreToKeys(ops, u, map[]);
    }
  }

  lemma ByKey(ops: seq<KvOperation>)
    ensures EachKey(ops, All(|ops|), map[]) <==> LinearizableByKey(ops)
  {
    hide Linearizable, Completable, Filter, OneKey, OnKey;
    forall k
      ensures Linearizable(OneKey(), Filter(ops, |ops|, k)) <==>
              Completable(OneKey(), ops, OnKey(ops, All(|ops|), k), Lookup(map[], k))
    {
      FilterOnKey(ops, k);
    }
  }

  lemma {:induction false} FilterTimed(ops: seq<KvOperation>, n: nat, k: string)
    requires n <= |ops| && Timed(ops)
    ensures Timed(Filter(ops, n, k))
  {
    if n > 0 {
      FilterTimed(ops, n - 1, k);
    }
  }

  // A key without operations has nothing to linearize.
  lemma NothingOnKey(ops: seq<KvOperation>, k: string)
    requires !IsKey(ops, |ops|, k)
    ensures Linearizable(OneKey(), Filter(ops, |ops|, k))
  {
    NoneOnKey(ops, |ops|, k);
    var sub: seq<KvOperation> := [];
    assert IsLinearization(OneKey(), sub, All(|sub|), OneKey().init, []);
  }

  // ---------------------------------------------------------------- the partition

  predicate StringLess(s: string, t: string) {
    t != "" && (s == "" || s[0] < t[0] || (s[0] == t[0] && StringLess(s[1..], t[1..])))
  }

  lemma {:induction false} StringOrder(s: string, t: string)
    ensures s == t || StringLess(s, t) || StringLess(t, s)
    ensures !(StringLess(s, t) && StringLess(t, s)) && !StringLess(s, s)
  {
    if s != "" {
      StringOrder(s[1..], if t == "" then "" else t[1..]);
      if t != "" && s[0] == t[0] && s[1..] == t[1..] {
        assert s == [s[0]] + s[1..] == t;
      }
    }
  }

  lemma {:induction false} StringTransitive(s: string, t: string, u: string)
    requires StringLess(s, t) && StringLess(t, u)
    ensures StringLess(s, u)
  {
    if s != "" && s[0] == t[0] == u[0] {
      StringTransitive(s[1..], t[1..], u[1..]);
    }
  }

  ghost predicate Increasing(keys: seq<string>) {
    forall i, j :: 0 <= i < j < |keys| ==> StringLess(keys[i], keys[j])
  }

  method InsertKey(keys: seq<string>, k: string) returns (r: seq<string>)
    requires Increasing(keys) && k !in keys
    ensures Increasing(r) && k in r && (forall x :: x in keys ==> x in r) && (forall x :: x in r ==> x == k || x in keys)
  {
    var i := |keys|;
    while i > 0 && StringLess(k, keys[i - 1])
      invariant 0 <= i <= |keys|
      invariant forall j :: i <= j < |keys| ==> StringLess(k, keys[j])
    {
      i := i - 1;
    }
    r := Inserted(keys, k, i);
    IncreasingInsert(keys, k, i);
  }

  lemma IncreasingInsert(keys: seq<string>, k: string, i: nat)
    requires Increasing(keys) && k !in keys && i <= |keys|
    requires forall j :: i <= j < |keys| ==> StringLess(k, keys[j])
    requires i > 0 ==> !StringLess(k, keys[i - 1])
    ensures Increasing(Inserted(keys, k, i))
  {
    var r := Inserted(keys, k, i);
    forall x, y | 0 <= x < y < |r| ensures StringLess(r[x], r[y]) {
      assert r[x] == if x < i then keys[x] else if x == i then k else keys[x - 1];
      assert r[y] == if y < i then keys[y] else if y == i then k else keys[y - 1];
      if y == i {
        StringOrder(k, keys[i - 1]);
        if x < i - 1 {
          StringTransitive(keys[x], keys[i - 1], k);
        }
      }
    }
  }

  // The keys of the first `n` operations.
  ghost predicate IsKey(history: seq<KvOperation>, n: nat, k: string)
    requires n <= |history|
  {
    exists a :: 0 <= a < n && history[a].input.key == k
  }

  // `m` holds the history of each key, for the keys of the first `n` operations.
  ghost predicate Grouped(history: seq<KvOperation>, n: nat, m: map<string, seq<KvOperation>>)
    requires n <= |history|
  {
    && (forall k :: k in m <==> IsKey(history, n, k))
    && (forall k :: k in m ==> m[k] == Filter(history, n, k))
  }

  method Group(history: seq<KvOperation>) returns (m: map<string, seq<KvOperation>>)
    ensures Grouped(history, |history|, m)
  {
    m := map[];
    var n := 0;
    while n < |history|
      invariant 0 <= n <= |history|
      invariant Grouped(history, n, m)
    {
      hide Grouped;
      var key := history[n].input.key;
      GroupStep(history, n, m);
      m := m[key := (if key in m then m[key] else []) + [history[n]]];
      n := n + 1;
    }
  }

  lemma GroupStep(history: seq<KvOperation>, n: nat, m: map<string, seq<KvOperation>>)
    requires n < |history| && Grouped(history, n, m)
    ensures
      var key := history[n].input.key;
      Grouped(history, n + 1, m[key := (if key in m then m[key] else []) + [history[n]]])
  {
    hide Filter, IsKey;
    var key := history[n].input.key;
    var m' := m[key := (if key in m then m[key] else []) + [history[n]]];
    forall k ensures k in m' <==> IsKey(history, n + 1, k) {
      KeyOfNext(history, n, k);
    }
    forall k | k in m' ensures m'[k] == Filter(history, n + 1, k) {
      FilterStep(history, n, k);
      if k !in m {
        NoneOnKey(history, n, k);
      }
    }
  }

  lemma KeyOfNext(history: seq<KvOperation>, n: nat, k: string)
    requires n < |history|
    ensures IsKey(history, n + 1, k) <==> IsKey(history, n, k) || k == history[n].input.key
  {
    if k == history[n].input.key {
      assert history[n].input.key == k;
    }
  }

  lemma FilterStep(history: seq<KvOperation>, n: nat, k: string)
    requires n < |history|
    ensures Filter(history, n + 1, k) == Filter(history, n, k) + if k == history[n].input.key then [history[n]] else []
  {
  }

  lemma {:induction false} NoneOnKey(history: seq<KvOperation>, n: nat, k: string)
    requires n <= |history| && !IsKey(history, n, k)
    ensures Filter(history, n, k) == []
  {
    if n > 0 {
      NoneOnKey(history, n - 1, k);
    }
  }

  lemma FilterOfKey(history: seq<KvOperation>, k: string)
    requires IsKey(history, |history|, k)
    ensures Filter(history, |history|, k) != [] && Filter(history, |history|, k)[0].input.key == k
  {
    hide Filter, Indices;
    FilterIndices(history, |history|, k);
    var a :| 0 <= a < |history| && history[a].input.key == k;
    assert a in Indices(history, |history|, k);
  }

  /** The history of every key that occurs, in the order of the keys. */
  method Partition(history: seq<KvOperation>) returns (parts: seq<seq<KvOperation>>, ghost keys: seq<string>)
    ensures Increasing(keys) && forall k :: k in keys <==> IsKey(history, |history|, k)
    ensures |parts| == |keys| && forall i :: 0 <= i < |parts| ==> parts[i] == Filter(history, |history|, keys[i])
    ensures forall i :: 0 <= i < |parts| ==>
      parts[i] != [] && parts[i] == Filter(history, |history|, parts[i][0].input.key)
  {
    hide Filter, IsKey, StringLess;
    var m := Group(history);
    var sorted: seq<string> := [];
    var rest := m.Keys;
    while rest != {}
      invariant rest <= m.Keys && Increasing(sorted)
      invariant forall k :: k in sorted <==> k in m && k !in rest
      decreases |rest|
    {
      hide Increasing, Grouped;
      var k :| k in rest;
      sorted := InsertKey(sorted, k);
      rest := rest - {k};
    }
    parts := [];
    var i := 0;
    while i < |sorted|
      invariant 0 <= i <= |sorted| && |parts| == i
      invariant forall j :: 0 <= j < i ==> parts[j] == Filter(history, |history|, sorted[j])
    {
      assert sorted[i] in sorted;
      parts := parts + [m[sorted[i]]];
      i := i + 1;
    }
    keys := sorted;
    forall j | 0 <= j < |parts| ensures parts[j] != [] && parts[j] == Filter(history, |history|, parts[j][0].input.key) {
      assert keys[j] in keys;
      FilterOfKey(history, keys[j]);
    }
  }

  // ---------------------------------------------------------------- the whole check

  datatype CheckResult = Unknown | Ok | Illegal

  method CheckPart(part: seq<KvOperation>) returns (ok: bool)
    requires Timed(part)
    ensures ok <==> Linearizable(OneKey(), part)
  {
    var entries := MakeEntries(part);
    ghost var cp, rp := ArrangedPlaces(part, entries);
    SameHistory(OneKey(), part, entries, cp, rp);
    OneKeyCongruent();
    ghost var p := Problem(OneKey(), entries, cp, rp);
    assert p.WellFormed();
    var order;
    ok, order := Single.CheckSingle(OneKey(), entries, cp, rp);
  }

  /** Checking the keys one by one decides whether the whole store behaved atomically.  With no operations there is no
      part to wait for, so only the timeout ends the check, and it reports `Unknown`. */
  method CheckOperations(history: seq<KvOperation>) returns (result: CheckResult)
    requires Timed(history)
    ensures result.Unknown? <==> history == []
    ensures history != [] ==> (result.Ok? <==> Linearizable(Store(), history))
    ensures history != [] ==> (result.Ok? <==> Explained(history))
  {
    hide Linearizable, Explained;
    LinearizableMeans(history);
    var parts, keys := Partition(history);
    assert history != [] ==> IsKey(history, |history|, history[0].input.key) && keys != [];
    assert keys != [] ==> keys[0] in keys && history != [];
    hide IsKey, Filter, LinearizableByKey, Increasing;
    if |parts| == 0 {
      return Unknown;
    }
    Locality(history);
    var count := 0;
    while count < |parts|
      invariant 0 <= count <= |parts|
      invariant forall i :: 0 <= i < count ==> Linearizable(OneKey(), parts[i])
    {
      FilterTimed(history, |history|, keys[count]);
      var ok := CheckPart(parts[count]);
      if !ok {
        OneFails(history, keys[count]);
        return Illegal;
      }
      count := count + 1;
    }
    AllKeys(history, keys, parts);
    return Ok;
  }

  lemma OneFails(history: seq<KvOperation>, k: string)
    requires !Linearizable(OneKey(), Filter(history, |history|, k))
    ensures !LinearizableByKey(history)
  {
  }

  lemma AllKeys(history: seq<KvOperation>, keys: seq<string>, parts: seq<seq<KvOperation>>)
    requires forall k :: k in keys <==> IsKey(history, |history|, k)
    requires |parts| == |keys| && forall i :: 0 <= i < |parts| ==> parts[i] == Filter(history, |history|, keys[i])
    requires forall i :: 0 <= i < |parts| ==> Linearizable(OneKey(), parts[i])
    ensures LinearizableByKey(history)
  {
    hide Linearizable, Filter;
    forall k ensures Linearizable(OneKey(), Filter(history, |history|, k)) {
      if k in keys {
        var i :| 0 <= i < |keys| && keys[i] == k;
        assert parts[i] == Filter(history, |history|, k);
      } else {
        NothingOnKey(history, k);
      }
    }
  }
}
