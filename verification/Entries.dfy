/** From operations with times to the sorted entries that the checker walks. */
module EntriesOfHistory {
  import opened Linearizability
  import opened Search

  // The order of the source's byTime: earlier first, and calls before returns at the same time.
  predicate Less<I, O>(a: Entry<I, O>, b: Entry<I, O>) {
    if a.time != b.time then a.time < b.time else a.CallEntry? && b.ReturnEntry?
  }

  predicate Sorted<I, O>(s: seq<Entry<I, O>>) {
    forall i, j :: 0 <= i < j < |s| ==> !Less(s[j], s[i])
  }

  function CallOf<I, O>(ops: seq<Operation<I, O>>, a: nat): Entry<I, O>
    requires a < |ops|
  {
    CallEntry(a, ops[a].input, ops[a].call, ops[a].clientId)
  }

  function ReturnOf<I, O>(ops: seq<Operation<I, O>>, a: nat): Entry<I, O>
    requires a < |ops|
  {
    ReturnEntry(a, ops[a].output, ops[a].ret, ops[a].clientId)
  }

  // The entries of the first `k` operations.
  ghost predicate IsEntry<I, O>(ops: seq<Operation<I, O>>, k: nat, e: Entry<I, O>)
    requires k <= |ops|
  {
    e.id < k && (e == CallOf(ops, e.id) || e == ReturnOf(ops, e.id))
  }

  // `entries` holds each entry of the first `k` operations once, and nothing else.
  ghost predicate Holds<I, O>(ops: seq<Operation<I, O>>, k: nat, entries: seq<Entry<I, O>>)
    requires k <= |ops|
  {
    && |entries| == 2 * k
    && (forall p :: 0 <= p < |entries| ==> IsEntry(ops, k, entries[p]))
    && (forall p, q :: 0 <= p < q < |entries| ==> entries[p] != entries[q])
    && (forall a :: 0 <= a < k ==> CallOf(ops, a) in entries && ReturnOf(ops, a) in entries)
  }

  // An operation does not return before it is called.
  ghost predicate Timed<I, O>(ops: seq<Operation<I, O>>) {
    forall a :: 0 <= a < |ops| ==> ops[a].call <= ops[a].ret
  }

  // Any arrangement that a sort by `Less` may produce; the order of equal entries is left open.
  ghost predicate Arranges<I, O>(ops: seq<Operation<I, O>>, entries: seq<Entry<I, O>>) {
    Sorted(entries) && Holds(ops, |ops|, entries)
  }

  ghost function IndexOf<T>(s: seq<T>, e: T): (i: nat)
    requires e in s
    ensures i < |s| && s[i] == e
  {
    if s[0] == e then 0 else 1 + IndexOf(s[1..], e)
  }

  // Entries compare as they are placed.
  lemma Placed<I, O>(s: seq<Entry<I, O>>, i: nat, j: nat)
    requires Sorted(s) && i < |s| && j < |s| && Less(s[i], s[j])
    ensures i < j
  {
  }

  ghost function CallPlaces<I, O>(ops: seq<Operation<I, O>>, entries: seq<Entry<I, O>>): (cp: seq<nat>)
    requires forall a :: 0 <= a < |ops| ==> CallOf(ops, a) in entries
    ensures |cp| == |ops| && forall a :: 0 <= a < |ops| ==> cp[a] < |entries| && entries[cp[a]] == CallOf(ops, a)
  {
    seq(|ops|, a requires 0 <= a < |ops| => IndexOf(entries, CallOf(ops, a)))
  }

  ghost function ReturnPlaces<I, O>(ops: seq<Operation<I, O>>, entries: seq<Entry<I, O>>): (rp: seq<nat>)
    requires forall a :: 0 <= a < |ops| ==> ReturnOf(ops, a) in entries
    ensures |rp| == |ops| && forall a :: 0 <= a < |ops| ==> rp[a] < |entries| && entries[rp[a]] == ReturnOf(ops, a)
  {
    seq(|ops|, a requires 0 <= a < |ops| => IndexOf(entries, ReturnOf(ops, a)))
  }

  /** Whatever order the sort gives to equal entries, the result is a well-formed history whose positions order calls
      and returns exactly as the times do. */
  lemma ArrangedPlaces<I, O>(ops: seq<Operation<I, O>>, entries: seq<Entry<I, O>>) returns (cp: seq<nat>, rp: seq<nat>)
    requires Timed(ops) && Arranges(ops, entries)
    ensures Positions(entries, cp, rp) && |cp| == |ops|
    ensures forall a :: 0 <= a < |ops| ==>
      entries[cp[a]] == CallOf(ops, a) && entries[rp[a]] == ReturnOf(ops, a)
    ensures forall a, b :: 0 <= a < |ops| && 0 <= b < |ops| ==> (rp[a] < cp[b] <==> ops[a].ret < ops[b].call)
  {
    cp, rp := CallPlaces(ops, entries), ReturnPlaces(ops, entries);
    forall p | 0 <= p < |entries|
      ensures entries[p].id < |cp| && p == if entries[p].CallEntry? then cp[entries[p].id] else rp[entries[p].id]
    {
      assert IsEntry(ops, |ops|, entries[p]);
    }
    forall a | 0 <= a < |ops| ensures cp[a] < rp[a] {
      Placed(entries, cp[a], rp[a]);
    }
    forall a, b | 0 <= a < |ops| && 0 <= b < |ops| ensures rp[a] < cp[b] <==> ops[a].ret < ops[b].call {
      PlacedAsTimed(ops, entries, a, b, cp, rp);
    }
  }

  lemma PlacedAsTimed<I, O>(ops: seq<Operation<I, O>>, entries: seq<Entry<I, O>>, a: nat, b: nat, cp: seq<nat>, rp: seq<nat>)
    requires Sorted(entries) && |cp| == |rp| == |ops| && a < |ops| && b < |ops|
    requires cp[b] < |entries| && entries[cp[b]] == CallOf(ops, b)
    requires rp[a] < |entries| && entries[rp[a]] == ReturnOf(ops, a)
    ensures rp[a] < cp[b] <==> ops[a].ret < ops[b].call
  {
    if ops[a].ret < ops[b].call {
      Placed(entries, rp[a], cp[b]);
    } else {
      Placed(entries, cp[b], rp[a]);
    }
  }

  method Insert<I, O>(s: seq<Entry<I, O>>, e: Entry<I, O>) returns (r: seq<Entry<I, O>>, ghost i: nat)
    requires Sorted(s)
    ensures i <= |s| && r == Inserted(s, e, i) && Sorted(r)
  {
    var n := |s|;
    while n > 0 && Less(e, s[n - 1])
      invariant 0 <= n <= |s|
      invariant forall j :: n <= j < |s| ==> Less(e, s[j])
    {
      n := n - 1;
    }
    i := n;
    r := s[..n] + [e] + s[n..];
    InsertSorted(s, e, n);
  }

  lemma InsertSorted<I, O>(s: seq<Entry<I, O>>, e: Entry<I, O>, i: nat)
    requires Sorted(s) && i <= |s| && (forall j :: i <= j < |s| ==> Less(e, s[j])) && (i > 0 ==> !Less(e, s[i - 1]))
    ensures Sorted(s[..i] + [e] + s[i..])
  {
    var r := s[..i] + [e] + s[i..];
    forall x, y | 0 <= x < y < |r| ensures !Less(r[y], r[x]) {
      assert r[x] == if x < i then s[x] else if x == i then e else s[x - 1];
      assert r[y] == if y < i then s[y] else if y == i then e else s[y - 1];
      if y == i && x < i - 1 {
        assert !Less(s[i - 1], s[x]) && !Less(e, s[i - 1]);
      }
    }
  }

  lemma HoldsNext<I, O>(ops: seq<Operation<I, O>>, k: nat, s: seq<Entry<I, O>>, i: nat, j: nat)
    requires k < |ops| && Holds(ops, k, s) && i <= |s| && j <= |s| + 1
    ensures Holds(ops, k + 1, Inserted(Inserted(s, CallOf(ops, k), i), ReturnOf(ops, k), j))
  {
    hide Inserted;
    var c, d := CallOf(ops, k), ReturnOf(ops, k);
    var t := Inserted(s, c, i);
    var r := Inserted(t, d, j);
    assert c !in s && d !in s;
    forall p | 0 <= p < |r| ensures IsEntry(ops, k + 1, r[p]) {
      assert r[p] in t || r[p] == d;
      assert r[p] in s || r[p] == c || r[p] == d;
    }
    forall a | 0 <= a < k + 1 ensures CallOf(ops, a) in r && ReturnOf(ops, a) in r {
      assert a < k ==> CallOf(ops, a) in s && ReturnOf(ops, a) in s;
    }
  }

  // Inserting keeps what was there, and keeps elements apart.
  function Inserted<T>(s: seq<T>, e: T, i: nat): (t: seq<T>)
    requires i <= |s|
    ensures |t| == |s| + 1
    ensures e in t && (forall x :: x in s ==> x in t) && (forall x :: x in t ==> x == e || x in s)
    ensures e !in s && (forall p, q :: 0 <= p < q < |s| ==> s[p] != s[q]) ==>
      (forall p, q :: 0 <= p < q < |t| ==> t[p] != t[q])
  {
    s[..i] + [e] + s[i..]
  }

  method MakeEntries<I, O>(history: seq<Operation<I, O>>) returns (entries: seq<Entry<I, O>>)
    ensures Arranges(history, entries)
  {
    entries := [];
    var id := 0;
    while id < |history|
      invariant 0 <= id <= |history|
      invariant Sorted(entries) && Holds(history, id, entries)
    {
      hide Holds, Sorted;
      ghost var s, i, j := entries, 0, 0;
      entries, i := Insert(entries, CallOf(history, id));
      entries, j := Insert(entries, ReturnOf(history, id));
      HoldsNext(history, id, s, i, j);
      id := id + 1;
    }
  }

  /** The entries linearize exactly when the operations do. */
  lemma SameHistory<S, I, O>(m: Model<S, I, O>, ops: seq<Operation<I, O>>, entries: seq<Entry<I, O>>, cp: seq<nat>, rp: seq<nat>)
    requires Positions(entries, cp, rp) && |cp| == |ops|
    requires forall a :: 0 <= a < |ops| ==> entries[cp[a]] == CallOf(ops, a) && entries[rp[a]] == ReturnOf(ops, a)
    requires forall a, b :: 0 <= a < |ops| && 0 <= b < |ops| ==> (rp[a] < cp[b] <==> ops[a].ret < ops[b].call)
    ensures Linearizable(m, Problem(m, entries, cp, rp).Ops()) <==> Linearizable(m, ops)
  {
    hide Linearizable, Completable, Positions;
    var ops' := Problem(m, entries, cp, rp).Ops();
    var f := Identity(|ops|);
    IdentityImage(|ops|);
    assert Embeds(ops', ops, f);
    EmbeddedCompletable(m, ops', ops, f, All(|ops|), m.init);
    CompletableIffLinearizable(m, ops);
    CompletableIffLinearizable(m, ops');
  }

  ghost function Identity(n: nat): (f: seq<nat>)
    ensures |f| == n && forall i :: 0 <= i < n ==> f[i] == i
  {
    seq(n, i => i)
  }

  lemma IdentityImage(n: nat)
    ensures Image(Identity(n), All(n)) == All(n)
  {
    var f := Identity(n);
    forall a | a in All(n) ensures a in Image(f, All(n)) {
      assert f[a] == a;
    }
  }
}
