/** The checker itself: a depth-first search over the linked entries, with lifting and unlifting in place, a
    stack of lifted calls, and a cache of configurations keyed by the hash of the linearized set.
 */
module Checker {
  import opened Linearizability
  import opened Bitset
  import opened EntryList
  import opened Search
  import opened Rank

  datatype CacheEntry<S> = CacheEntry(linearized: seq<Word>, state: S)

  type Cache<S> = map<Word, seq<CacheEntry<S>>>

  // ---------------------------------------------------------------- nodes and operations

  // The nodes whose operations are linearized.
  ghost function Gone<S, I, O>(p: Problem<S, I, O>, done: set<nat>): (gone: set<int>)
    ensures forall x :: x in gone <==> p.IsNode(x) && p.Id(x) in done
  {
    set x: int | 1 <= x <= |p.entries| && p.Id(x) in done
  }

  // `matching` links each call node to the node of its return.
  ghost predicate MatchOk<S, I, O>(p: Problem<S, I, O>, matching: seq<int>) {
    && p.WellFormed()
    && |matching| == |p.entries| + 1 && matching[0] == NIL
    && forall x :: p.IsNode(x) ==> matching[x] == if p.entries[x - 1].CallEntry? then p.rp[p.Id(x)] + 1 else NIL
  }

  lemma GoneLifted<S, I, O>(p: Problem<S, I, O>, done: set<nat>, c: int)
    requires p.WellFormed() && p.IsNode(c) && p.entries[c - 1].CallEntry?
    ensures Gone(p, done + {p.Id(c)}) == Gone(p, done) + {c, p.rp[p.Id(c)] + 1}
  {
    var a := p.Id(c);
    assert c == p.cp[a] + 1;
    assert p.IsNode(p.rp[a] + 1) && p.Id(p.rp[a] + 1) == a;
  }

  // From a live call the list goes on to another live node; the call's own return is one.
  lemma NextIsLive<S, I, O>(p: Problem<S, I, O>, calls: seq<Frame<S>>, state: S, c: int, q: int)
    requires StackOk(p, calls, state)
    requires p.IsNode(c) && p.entries[c - 1].CallEntry? && p.Id(c) in p.Rest(Done(p, calls))
    requires IsNext(Gone(p, Done(p, calls)), c, |p.entries| + 1, q)
    requires p.Tried(Done(p, calls), state, c) && p.OnlyCalls(Done(p, calls), c)
    requires !Viable(p.m, p.Ops(), p.Rest(Done(p, calls)), state, p.Id(c))
    ensures c < q && ScanOk(p, calls, state, q)
  {
    var done := Done(p, calls);
    var r := p.rp[p.Id(c)] + 1;
    assert c == p.cp[p.Id(c)] + 1 && p.IsNode(r) && p.Id(r) == p.Id(c);
    assert r !in Gone(p, done);
    assert p.IsNode(q) && q !in Gone(p, done);
    forall x | c < x < q ensures p.IsNode(x) && p.Id(x) !in p.Rest(done) {
      assert x in Gone(p, done);
    }
    NodeInRest(p, done, q);
    MoveOn(p, calls, state, c, q);
  }

  lemma NodeInRest<S, I, O>(p: Problem<S, I, O>, done: set<nat>, x: int)
    requires p.WellFormed() && p.IsNode(x) && x !in Gone(p, done)
    ensures p.Id(x) in p.Rest(done)
  {
  }

  // The first node of the list, when there is one, is where a new level starts; otherwise all is linearized.
  ghost predicate Standing<S, I, O>(p: Problem<S, I, O>, calls: seq<Frame<S>>, state: S, first: int, entry: int)
    requires StackOk(p, calls, state)
  {
    if first == NIL then p.Rest(Done(p, calls)) == {} else ScanOk(p, calls, state, entry)
  }

  lemma LevelStarts<S, I, O>(p: Problem<S, I, O>, calls: seq<Frame<S>>, state: S, first: int)
    requires StackOk(p, calls, state)
    requires IsNext(Gone(p, Done(p, calls)), 0, |p.entries| + 1, first)
    ensures Standing(p, calls, state, first, first)
  {
    var done := Done(p, calls);
    forall a: nat | a in p.Rest(done) ensures first != NIL && first <= p.cp[a] + 1 && first <= p.rp[a] + 1 {
      assert p.IsNode(p.cp[a] + 1) && p.Id(p.cp[a] + 1) == a;
      assert p.IsNode(p.rp[a] + 1) && p.Id(p.rp[a] + 1) == a;
      assert p.cp[a] + 1 !in Gone(p, done) && p.rp[a] + 1 !in Gone(p, done);
    }
    if first != NIL {
      NodeInRest(p, done, first);
    }
  }

  // ---------------------------------------------------------------- pointers

  // Every lifted pair on the stack can be put back in reverse order.
  ghost predicate StackSaved<S, I, O>(p: Problem<S, I, O>, calls: seq<Frame<S>>, matching: seq<int>, next: seq<int>, prev: seq<int>)
    requires Nodes(p, calls) && MatchOk(p, matching)
  {
    forall j :: 0 <= j < |calls| ==>
      Saved(next, prev, Gone(p, Done(p, calls[..j])), calls[j].entry, matching[calls[j].entry])
  }

  ghost predicate SameOn(gone: set<int>, next: seq<int>, prev: seq<int>, next': seq<int>, prev': seq<int>) {
    && |next| == |prev| == |next'| == |prev'|
    && forall y :: 0 <= y < |next| && y in gone ==> next'[y] == next[y] && prev'[y] == prev[y]
  }

  // A frame's nodes are gone from every later list.
  lemma FrameGone<S, I, O>(p: Problem<S, I, O>, calls: seq<Frame<S>>, state: S, j: nat, k: nat)
    requires StackOk(p, calls, state) && j < k <= |calls|
    ensures var c, gone := calls[j].entry, Gone(p, Done(p, calls[..k]));
      p.entries[c - 1].CallEntry? && c in gone && p.rp[p.Id(c)] + 1 in gone
  {
    var c := calls[j].entry;
    assert FrameOk(p, calls, state, j);
    DoneMembers(p, calls[..k], p.Id(c));
    assert calls[..k][j] == calls[j];
    GoneLifted(p, Done(p, calls[..k]), c);
    assert Done(p, calls[..k]) + {p.Id(c)} == Done(p, calls[..k]);
  }

  lemma SavedSame(next: seq<int>, prev: seq<int>, next': seq<int>, prev': seq<int>, gone: set<int>, c: int, r: int)
    requires Saved(next, prev, gone, c, r) && |next'| == |prev'| == |next|
    requires next'[c] == next[c] && prev'[c] == prev[c] && next'[r] == next[r] && prev'[r] == prev[r]
    ensures Saved(next', prev', gone, c, r)
  {
  }

  lemma SavedStays<S, I, O>(p: Problem<S, I, O>, calls: seq<Frame<S>>, state: S, matching: seq<int>, k: nat,
                            next: seq<int>, prev: seq<int>, next': seq<int>, prev': seq<int>)
    requires StackOk(p, calls, state) && MatchOk(p, matching) && k <= |calls|
    requires StackSaved(p, calls, matching, next, prev)
    requires SameOn(Gone(p, Done(p, calls[..k])), next, prev, next', prev')
    ensures forall j :: 0 <= j < k ==>
      Saved(next', prev', Gone(p, Done(p, calls[..j])), calls[j].entry, matching[calls[j].entry])
  {
    hide IsNext, IsPrev, FrameOk, Done;
    forall j | 0 <= j < k
      ensures Saved(next', prev', Gone(p, Done(p, calls[..j])), calls[j].entry, matching[calls[j].entry])
    {
      var gone, c := Gone(p, Done(p, calls[..j])), calls[j].entry;
      assert Saved(next, prev, gone, c, matching[c]);
      FrameGone(p, calls, state, j, k);
      SavedSame(next, prev, next', prev', gone, c, matching[c]);
    }
  }

  // ---------------------------------------------------------------- the cache

  ghost predicate DeadEntry<S, I, O>(p: Problem<S, I, O>, e: CacheEntry<S>)
    requires p.WellFormed()
  {
    !Completable(p.m, p.Ops(), p.Rest(Bits(e.linearized)), e.state)
  }

  ghost predicate OnStack<S, I, O>(p: Problem<S, I, O>, calls: seq<Frame<S>>, state: S, e: CacheEntry<S>)
    requires Nodes(p, calls)
  {
    exists j :: 1 <= j <= |calls| && Bits(e.linearized) == Done(p, calls[..j]) && e.state == StateAt(calls, state, j)
  }

  // What the cache holds leads nowhere, or is being explored right now.
  ghost predicate CacheOk<S, I, O>(p: Problem<S, I, O>, calls: seq<Frame<S>>, state: S, cache: Cache<S>)
    requires StackOk(p, calls, state)
  {
    forall h, k :: h in cache && 0 <= k < |cache[h]| ==>
      DeadEntry(p, cache[h][k]) || OnStack(p, calls, state, cache[h][k])
  }

  function Bucket<S>(cache: Cache<S>, h: Word): seq<CacheEntry<S>> {
    if h in cache then cache[h] else []
  }

  /** Pruning by the cache never cuts off a linearization. */
  lemma HitIsDead<S(!new), I(!new), O(!new)>(
    p: Problem<S, I, O>, calls: seq<Frame<S>>, state: S, cache: Cache<S>, c: int, e: CacheEntry<S>, h: Word, k: nat)
    requires Congruent(p.m) && StackOk(p, calls, state) && CacheOk(p, calls, state, cache)
    requires p.IsNode(c) && p.Id(c) in p.Rest(Done(p, calls)) && Accepts(p.m, p.Ops()[p.Id(c)], state)
    requires Bits(e.linearized) == Done(p, calls) + {p.Id(c)} && e.state == After(p.m, p.Ops()[p.Id(c)], state)
    requires h in cache && k < |cache[h]|
    requires cache[h][k].linearized == e.linearized && p.m.equal(e.state, cache[h][k].state)
    ensures !Viable(p.m, p.Ops(), p.Rest(Done(p, calls)), state, p.Id(c))
  {
    var d := cache[h][k];
    assert !OnStack(p, calls, state, d) by {
      forall j | 1 <= j <= |calls| ensures Bits(d.linearized) != Done(p, calls[..j]) {
        DoneGrows(p, calls, j, |calls|);
        assert calls[..|calls|] == calls;
      }
    }
    var u := p.Rest(Done(p, calls));
    assert p.Rest(Bits(d.linearized)) == u - {p.Id(c)};
    if Completable(p.m, p.Ops(), u - {p.Id(c)}, e.state) {
      EqualStates(p.m, p.Ops(), u - {p.Id(c)}, e.state, d.state);
    }
  }

  lemma CachePush<S, I, O>(p: Problem<S, I, O>, calls: seq<Frame<S>>, state: S, f: Frame<S>, state': S,
                           cache: Cache<S>, e: CacheEntry<S>, h: Word)
    requires StackOk(p, calls, state) && StackOk(p, calls + [f], state') && f.state == state
    requires CacheOk(p, calls, state, cache)
    requires Bits(e.linearized) == Done(p, calls + [f]) && e.state == state'
    ensures CacheOk(p, calls + [f], state', cache[h := Bucket(cache, h) + [e]])
  {
    var calls', cache' := calls + [f], cache[h := Bucket(cache, h) + [e]];
    DoneSplit(p, calls, f);
    forall g, k | g in cache' && 0 <= k < |cache'[g]|
      ensures DeadEntry(p, cache'[g][k]) || OnStack(p, calls', state', cache'[g][k])
    {
      var d := cache'[g][k];
      if d == e {
        assert calls'[..|calls'|] == calls';
        assert OnStack(p, calls', state', e);
      } else {
        assert g in cache && k < |cache[g]| && cache[g][k] == d;
        if OnStack(p, calls, state, d) {
          var j :| 1 <= j <= |calls| && Bits(d.linearized) == Done(p, calls[..j]) && d.state == StateAt(calls, state, j);
          assert calls'[..j] == calls[..j] && d.state == StateAt(calls', state', j);
        }
      }
    }
  }

  lemma CachePop<S, I, O>(p: Problem<S, I, O>, calls: seq<Frame<S>>, state: S, cache: Cache<S>)
    requires StackOk(p, calls, state) && calls != [] && StackOk(p, calls[..|calls| - 1], calls[|calls| - 1].state)
    requires CacheOk(p, calls, state, cache)
    requires !Completable(p.m, p.Ops(), p.Rest(Done(p, calls)), state)
    ensures CacheOk(p, calls[..|calls| - 1], calls[|calls| - 1].state, cache)
  {
    hide FrameOk, Done, Completable;
    forall h, k | h in cache && 0 <= k < |cache[h]|
      ensures DeadEntry(p, cache[h][k]) || OnStack(p, calls[..|calls| - 1], calls[|calls| - 1].state, cache[h][k])
    {
      if !DeadEntry(p, cache[h][k]) {
        PopEntry(p, calls, state, cache[h][k]);
      }
    }
  }

  lemma PopEntry<S, I, O>(p: Problem<S, I, O>, calls: seq<Frame<S>>, state: S, d: CacheEntry<S>)
    requires p.WellFormed() && Nodes(p, calls) && calls != []
    requires OnStack(p, calls, state, d) && !DeadEntry(p, d)
    requires !Completable(p.m, p.Ops(), p.Rest(Done(p, calls)), state)
    ensures OnStack(p, calls[..|calls| - 1], calls[|calls| - 1].state, d)
  {
    hide Done, Completable;
    var n := |calls| - 1;
    var calls', state' := calls[..n], calls[n].state;
    var j :| 1 <= j <= |calls| && Bits(d.linearized) == Done(p, calls[..j]) && d.state == StateAt(calls, state, j);
    assert j < |calls| by {
      assert calls[..|calls|] == calls;
    }
    assert calls'[..j] == calls[..j] && d.state == StateAt(calls', state', j);
  }

  // Every entry has the same room and lies in the bucket of its hash.
  ghost predicate Filed<S>(cache: Cache<S>, room: nat) {
    forall h, k :: h in cache && 0 <= k < |cache[h]| ==> |cache[h][k].linearized| == room && HashOf(cache[h][k].linearized) == h
  }

  lemma FiledPush<S>(cache: Cache<S>, e: CacheEntry<S>, room: nat)
    requires Filed(cache, room) && |e.linearized| == room
    ensures Filed(cache[HashOf(e.linearized) := Bucket(cache, HashOf(e.linearized)) + [e]], room)
  {
    hide HashOf;
  }

  // Somewhere in the cache there is the same set with an equal state.
  ghost predicate Known<S, I, O>(model: Model<S, I, O>, cache: Cache<S>, e: CacheEntry<S>) {
    exists h, k :: h in cache && 0 <= k < |cache[h]| && SameConfiguration(model, e, cache[h][k])
  }

  ghost predicate SameConfiguration<S, I, O>(model: Model<S, I, O>, e: CacheEntry<S>, d: CacheEntry<S>) {
    Bits(d.linearized) == Bits(e.linearized) && model.equal(e.state, d.state)
  }

  // Looking into one bucket misses nothing.
  lemma OneBucket<S, I, O>(model: Model<S, I, O>, cache: Cache<S>, e: CacheEntry<S>)
    requires Filed(cache, |e.linearized|)
    ensures Known(model, cache, e) <==>
      exists d :: d in Bucket(cache, HashOf(e.linearized)) && d.linearized == e.linearized && model.equal(e.state, d.state)
  {
    hide Bits, HashOf;
    if Known(model, cache, e) {
      var h, k :| h in cache && 0 <= k < |cache[h]| && SameConfiguration(model, e, cache[h][k]);
      SameSet(cache[h][k].linearized, e.linearized);
      assert cache[h][k] in Bucket(cache, h);
    }
    if d :| d in Bucket(cache, HashOf(e.linearized)) && d.linearized == e.linearized && model.equal(e.state, d.state) {
      var h := HashOf(e.linearized);
      var k :| 0 <= k < |cache[h]| && cache[h][k] == d;
      assert SameConfiguration(model, e, cache[h][k]);
    }
  }

  method CacheContains<S, I, O>(model: Model<S, I, O>, cache: Cache<S>, e: CacheEntry<S>) returns (found: bool, ghost at: nat)
    ensures found ==>
      var h := HashOf(e.linearized);
      h in cache && at < |cache[h]| && cache[h][at].linearized == e.linearized && model.equal(e.state, cache[h][at].state)
    ensures !found ==> forall d :: d in Bucket(cache, HashOf(e.linearized)) ==>
      d.linearized != e.linearized || !model.equal(e.state, d.state)
    ensures Filed(cache, |e.linearized|) ==> (found <==> Known(model, cache, e))
  {
    hide HashOf, Known, Filed;
    if Filed(cache, |e.linearized|) {
      OneBucket(model, cache, e);
    }
    var hash := Hash(e.linearized);
    var bucket := Bucket(cache, hash);
    var i := 0;
    at := 0;
    while i < |bucket|
      invariant 0 <= i <= |bucket|
      invariant forall k :: 0 <= k < i ==> bucket[k].linearized != e.linearized || !model.equal(e.state, bucket[k].state)
    {
      var same := Equals(e.linearized, bucket[i].linearized);
      if same && model.equal(e.state, bucket[i].state) {
        return true, i;
      }
      i := i + 1;
    }
    return false, at;
  }

  // ---------------------------------------------------------------- progress

  // The path of the search: the nodes on the stack, then the node it stands at.
  ghost function Path<S>(calls: seq<Frame<S>>, entry: int): (d: seq<nat>)
    requires entry >= NIL && forall j :: 0 <= j < |calls| ==> calls[j].entry >= 1
    ensures |d| == |calls| + 1
  {
    seq(|calls|, j requires 0 <= j < |calls| => (calls[j].entry + 2) as nat) + [entry + 2]
  }

  ghost predicate PathOk<S, I, O>(p: Problem<S, I, O>, calls: seq<Frame<S>>, entry: int) {
    NIL <= entry <= |p.entries| && Nodes(p, calls) && |calls| <= |p.cp|
  }

  ghost function Progress<S, I, O>(p: Problem<S, I, O>, calls: seq<Frame<S>>, entry: int): nat
    requires PathOk(p, calls, entry)
  {
    Val(Path(calls, entry), |p.cp| + 1, |p.entries| + 3)
  }

  ghost function Limit<S, I, O>(p: Problem<S, I, O>): nat {
    Pow(|p.entries| + 3, |p.cp| + 1)
  }

  lemma ProgressBound<S, I, O>(p: Problem<S, I, O>, calls: seq<Frame<S>>, entry: int)
    requires PathOk(p, calls, entry)
    ensures Progress(p, calls, entry) < Limit(p)
  {
    ValBound(Path(calls, entry), |p.cp| + 1, |p.entries| + 3);
  }

  lemma ProgressPush<S, I, O>(p: Problem<S, I, O>, calls: seq<Frame<S>>, entry: int, state: S, first: int)
    requires PathOk(p, calls, entry) && entry >= 1 && PathOk(p, calls + [Frame(entry, state)], first)
    ensures Progress(p, calls, entry) < Progress(p, calls + [Frame(entry, state)], first)
  {
    var d, e := Path(calls, entry), Path(calls + [Frame(entry, state)], first);
    assert d == e[..|d|];
    ValGrows(d, e, |p.cp| + 1, |p.entries| + 3, |d|);
  }

  lemma ProgressMove<S, I, O>(p: Problem<S, I, O>, calls: seq<Frame<S>>, entry: int, q: int)
    requires PathOk(p, calls, entry) && PathOk(p, calls, q) && entry < q
    ensures Progress(p, calls, entry) < Progress(p, calls, q)
  {
    ValGrows(Path(calls, entry), Path(calls, q), |p.cp| + 1, |p.entries| + 3, |calls|);
  }

  lemma ProgressPop<S, I, O>(p: Problem<S, I, O>, calls: seq<Frame<S>>, entry: int, q: int)
    requires PathOk(p, calls, entry) && calls != [] && PathOk(p, calls[..|calls| - 1], q)
    requires calls[|calls| - 1].entry < q
    ensures Progress(p, calls, entry) < Progress(p, calls[..|calls| - 1], q)
  {
    var d, e := Path(calls, entry), Path(calls[..|calls| - 1], q);
    assert d[..|calls| - 1] == e[..|calls| - 1];
    ValGrows(d, e, |p.cp| + 1, |p.entries| + 3, |calls| - 1);
  }

  lemma {:induction false} AllSize(n: nat)
    ensures |All(n)| == n
  {
    if n > 0 {
      AllSize(n - 1);
    }
  }

  lemma DoneStep<S, I, O>(p: Problem<S, I, O>, calls: seq<Frame<S>>, state: S, k: nat) returns (a: nat)
    requires StackOk(p, calls, state) && 0 < k <= |calls|
    ensures a < |p.cp| && a !in Done(p, calls[..k - 1]) && Done(p, calls[..k]) == Done(p, calls[..k - 1]) + {a}
  {
    assert FrameOk(p, calls, state, k - 1);
    assert calls[..k][..k - 1] == calls[..k - 1];
    a := p.Id(calls[k - 1].entry);
  }

  // The stack holds distinct operations, so it is never longer than the history.
  lemma {:induction false} StackSize<S, I, O>(p: Problem<S, I, O>, calls: seq<Frame<S>>, state: S, k: nat)
    requires StackOk(p, calls, state) && k <= |calls|
    ensures |Done(p, calls[..k])| == k <= |p.cp|
    ensures Done(p, calls[..k]) <= All(|p.cp|)
  {
    hide FrameOk;
    if k > 0 {
      StackSize(p, calls, state, k - 1);
      var a := DoneStep(p, calls, state, k);
    }
    FitsAll(Done(p, calls[..k]), |p.cp|);
  }

  lemma FitsAll(u: set<nat>, n: nat)
    requires u <= All(n)
    ensures |u| <= n
  {
    AllSize(n);
    assert All(n) == u + (All(n) - u);
  }

  // ---------------------------------------------------------------- building the list

  // Before the head goes in: the nodes from `root` on, linked one to the next.
  ghost predicate Chain(next: seq<int>, prev: seq<int>, root: int) {
    && |next| == |prev| && 1 <= root <= |next|
    && next[0] == prev[0] == NIL
    && (forall x :: root <= x < |next| ==>
          && next[x] == (if x + 1 < |next| then x + 1 else NIL)
          && prev[x] == (if x == root then NIL else x - 1))
    && forall x :: 1 <= x < root ==> next[x] == prev[x] == NIL
  }

  lemma ChainLinked(next: seq<int>, prev: seq<int>)
    requires Chain(next, prev, 1)
    ensures var (next', prev') := if |next| == 1 then (next, prev) else Inserted(next, prev, 0, 1);
      Linked(next', prev', {})
  {
  }

  // Which return belongs to which call, found by walking the entries from the end.
  method FindMatches<S, I, O>(entries: seq<Entry<I, O>>, ghost p: Problem<S, I, O>) returns (matching: seq<int>)
    requires p.WellFormed() && p.entries == entries
    ensures MatchOk(p, matching)
  {
    matching := seq(|entries| + 1, _ => NIL);
    var found: map<nat, int> := map[];
    var i := |entries| - 1;
    while i >= 0
      invariant -1 <= i < |entries| && |matching| == |entries| + 1 && matching[0] == NIL
      invariant forall a :: 0 <= a < |p.rp| && i < p.rp[a] ==> a in found && found[a] == p.rp[a] + 1
      invariant forall x :: i + 1 < x <= |entries| ==>
        matching[x] == if entries[x - 1].CallEntry? then p.rp[entries[x - 1].id] + 1 else NIL
      invariant forall x :: 0 <= x <= i + 1 ==> matching[x] == NIL
    {
      var elem := entries[i];
      if elem.ReturnEntry? {
        found := found[elem.id := i + 1];
      } else {
        matching := matching[i + 1 := found[elem.id]];
      }
      i := i - 1;
    }
  }

  method MakeLinkedEntries<S, I, O>(entries: seq<Entry<I, O>>, ghost p: Problem<S, I, O>) returns (list: Entries)
    requires p.WellFormed() && p.entries == entries
    ensures fresh(list) && fresh(list.next) && fresh(list.prev) && list.Shape()
    ensures MatchOk(p, list.matching) && Linked(list.next[..], list.prev[..], {})
  {
    var matching := FindMatches(entries, p);
    assert forall c :: 0 < c < |matching| && matching[c] != NIL ==> c == p.cp[p.Id(c)] + 1;
    list := new Entries(|entries| + 1, matching);
    var root := NIL;
    var i := |entries| - 1;
    while i >= 0
      invariant -1 <= i < |entries|
      invariant list.Shape() && list.matching == matching && list.next.Length == |entries| + 1
      invariant fresh(list.next) && fresh(list.prev)
      invariant root == if i + 1 == |entries| then NIL else i + 2
      invariant Chain(list.next[..], list.prev[..], i + 2)
    {
      list.InsertBefore(i + 1, root);
      root := i + 1;
      i := i - 1;
    }
    ChainLinked(list.next[..], list.prev[..]);
    list.InsertBefore(0, root);
  }
}
