/** The checker's main loop, and the proof that it decides linearizability. */
module CheckSingle {
  import opened Linearizability
  import opened Bitset
  import opened EntryList
  import opened Search
  import opened Checker

  /** At each loop head the list holds exactly the entries of the operations not on the stack, in order;
      every pair on the stack can be put back; and the bitset holds the operations on the stack. */
  ghost predicate Pointers<S, I, O>(p: Problem<S, I, O>, list: Entries, linearized: array<Word>, calls: seq<Frame<S>>, state: S)
    reads list.next, list.prev, linearized
  {
    && StackOk(p, calls, state) && MatchOk(p, list.matching) && list.Shape()
    && Linked(list.next[..], list.prev[..], Gone(p, Done(p, calls)))
    && StackSaved(p, calls, list.matching, list.next[..], list.prev[..])
    && |p.cp| <= 64 * linearized.Length
    && Bits(linearized[..]) == Done(p, calls)
  }

  ghost predicate SearchOk<S, I, O>(p: Problem<S, I, O>, list: Entries, linearized: array<Word>, cache: Cache<S>,
                                    calls: seq<Frame<S>>, state: S, entry: int)
    reads list.next, list.prev, linearized
  {
    && Pointers(p, list, linearized, calls, state)
    && CacheOk(p, calls, state, cache)
    && Standing(p, calls, state, list.next[0], entry)
    && PathOk(p, calls, entry)
  }

  // The call the search stands at, as an operation.
  lemma AtCall<S, I, O>(p: Problem<S, I, O>, list: Entries, linearized: array<Word>, calls: seq<Frame<S>>, state: S, entry: int)
    requires Pointers(p, list, linearized, calls, state) && ScanOk(p, calls, state, entry)
    ensures 0 < entry < list.next.Length && entry !in Gone(p, Done(p, calls))
    ensures (list.matching[entry] == NIL) == p.entries[entry - 1].ReturnEntry?
    ensures p.Id(entry) < |p.cp|
    ensures list.matching[entry] != NIL ==>
      var r, op := list.matching[entry], p.Ops()[p.Id(entry)];
      && p.IsNode(r) && p.entries[entry - 1].CallEntry? && p.entries[r - 1].ReturnEntry?
      && op.input == p.entries[entry - 1].input && op.output == p.entries[r - 1].output
      && r == p.rp[p.Id(entry)] + 1 && r !in Gone(p, Done(p, calls))
  {
    hide Linked, StackSaved, FrameOk, Done, Bits, Viable;
    var a := p.Id(entry);
    assert p.IsNode(p.rp[a] + 1) && p.Id(p.rp[a] + 1) == a;
  }

  // Passing over a call that leads nowhere.
  method Advance<S, I, O>(ghost p: Problem<S, I, O>, list: Entries, linearized: array<Word>, ghost cache: Cache<S>,
                          ghost calls: seq<Frame<S>>, ghost state: S, entry: int) returns (entry': int)
    requires SearchOk(p, list, linearized, cache, calls, state, entry)
    requires 0 < entry < list.next.Length && list.matching[entry] != NIL && ScanOk(p, calls, state, entry)
    requires !Viable(p.m, p.Ops(), p.Rest(Done(p, calls)), state, p.Id(entry))
    ensures SearchOk(p, list, linearized, cache, calls, state, entry')
    ensures Progress(p, calls, entry) < Progress(p, calls, entry')
  {
    hide FrameOk, Choice, Done, Saved, IsPrev, IsNext, Linked, StackSaved, CacheOk, Has, Bits, Completable, Viable,
      Progress;
    AtCall(p, list, linearized, calls, state, entry);
    entry' := list.next[entry];
    NodePointer(list, Gone(p, Done(p, calls)), entry);
    NextIsLive(p, calls, state, entry, entry');
    ProgressMove(p, calls, entry, entry');
  }

  // Linearizing the call the search stands at, and starting over at the head of the list.
  method Descend<S, I, O>(ghost p: Problem<S, I, O>, list: Entries, linearized: array<Word>, ghost cache: Cache<S>,
                          calls: seq<Frame<S>>, state: S, entry: int, id: nat, newState: S)
    returns (calls': seq<Frame<S>>, entry': int)
    requires SearchOk(p, list, linearized, cache, calls, state, entry)
    requires ScanOk(p, calls, state, entry) && list.matching[entry] != NIL && id == p.Id(entry)
    requires Accepts(p.m, p.Ops()[id], state) && newState == After(p.m, p.Ops()[id], state)
    requires linearized != list.next as object && linearized != list.prev as object
    modifies list.next, list.prev, linearized
    ensures calls' == calls + [Frame(entry, state)]
    ensures Pointers(p, list, linearized, calls', newState)
    ensures Standing(p, calls', newState, list.next[0], entry') && PathOk(p, calls', entry')
    ensures Progress(p, calls, entry) < Progress(p, calls', entry')
  {
    hide FrameOk, Choice, Done, Saved, IsPrev, IsNext, Linked, StackSaved, CacheOk, Has, Bits, Completable, Viable,
      Progress;
    AtCall(p, list, linearized, calls, state, entry);
    ghost var done, next, prev := Done(p, calls), list.next[..], list.prev[..];
    calls' := calls + [Frame(entry, state)];
    PushOk(p, calls, state, entry);
    DoneSplit(p, calls, Frame(entry, state));
    GoneLifted(p, done, entry);
    Set(linearized, id);
    list.Lift(entry, Gone(p, done));
    entry' := list.next[0];
    DescendSaved(p, calls, state, newState, entry, list.matching, next, prev, list.next[..], list.prev[..]);
    HeadPointer(list, Gone(p, Done(p, calls')));
    LevelStarts(p, calls', newState, entry');
    FirstInRange(Gone(p, Done(p, calls')), list.next.Length, entry');
    assert calls'[..|calls'|] == calls';
    StackSize(p, calls', newState, |calls'|);
    ProgressPush(p, calls, entry, state, entry');
  }

  lemma HeadPointer(list: Entries, gone: set<int>)
    requires list.Shape() && list.next.Length > 0 && Linked(list.next[..], list.prev[..], gone) && 0 !in gone
    ensures IsNext(gone, 0, list.next.Length, list.next[0])
  {
    assert list.next[..][0] == list.next[0];
  }

  lemma NodePointer(list: Entries, gone: set<int>, x: int)
    requires list.Shape() && 0 <= x < list.next.Length && Linked(list.next[..], list.prev[..], gone) && x !in gone
    ensures IsNext(gone, x, list.next.Length, list.next[x])
  {
    assert list.next[..][x] == list.next[x];
  }

  lemma FirstInRange(gone: set<int>, n: int, q: int)
    requires IsNext(gone, 0, n, q)
    ensures NIL <= q < n || q == NIL
  {
  }

  lemma DescendSaved<S, I, O>(p: Problem<S, I, O>, calls: seq<Frame<S>>, state: S, state': S, c: int, matching: seq<int>,
                              next: seq<int>, prev: seq<int>, next': seq<int>, prev': seq<int>)
    requires StackOk(p, calls, state) && MatchOk(p, matching) && p.IsNode(c)
    requires StackOk(p, calls + [Frame(c, state)], state')
    requires StackSaved(p, calls, matching, next, prev)
    requires SameOn(Gone(p, Done(p, calls)), next, prev, next', prev')
    requires Saved(next', prev', Gone(p, Done(p, calls)), c, matching[c])
    ensures StackSaved(p, calls + [Frame(c, state)], matching, next', prev')
  {
    hide FrameOk, Done, Saved;
    var calls' := calls + [Frame(c, state)];
    assert calls[..|calls|] == calls;
    SavedStays(p, calls, state, matching, |calls|, next, prev, next', prev');
    forall j | 0 <= j < |calls'|
      ensures Saved(next', prev', Gone(p, Done(p, calls'[..j])), calls'[j].entry, matching[calls'[j].entry])
    {
      assert calls'[..j] == calls[..j];
    }
  }

  // Giving up the latest choice, and moving on behind it.
  method Backtrack<S, I, O>(ghost p: Problem<S, I, O>, list: Entries, linearized: array<Word>, ghost cache: Cache<S>,
                            calls: seq<Frame<S>>, ghost state: S, ghost entry: int, id: nat)
    returns (calls': seq<Frame<S>>, state': S, entry': int)
    requires SearchOk(p, list, linearized, cache, calls, state, entry)
    requires calls != [] && id == p.Id(calls[|calls| - 1].entry)
    requires !Completable(p.m, p.Ops(), p.Rest(Done(p, calls)), state)
    requires linearized != list.next as object && linearized != list.prev as object
    modifies list.next, list.prev, linearized
    ensures SearchOk(p, list, linearized, cache, calls', state', entry')
    ensures Progress(p, calls, entry) < Progress(p, calls', entry')
  {
    hide FrameOk, Choice, Done, Saved, IsPrev, IsNext, Linked, StackSaved, CacheOk, Has, Bits, Completable, Viable,
      Progress, Positions;
    var top := calls[|calls| - 1];
    calls', state' := calls[..|calls| - 1], top.state;
    PopOk(p, calls, state);
    TopIsDead(p, calls, state);
    CachePop(p, calls, state, cache);
    Restore(p, list, linearized, calls, state, id);
    ghost var done := Done(p, calls');
    TopEntry(p, calls, state);
    entry' := list.next[top.entry];
    NodePointer(list, Gone(p, done), top.entry);
    NextIsLive(p, calls', state', top.entry, entry');
    HeadIsLive(p, done, list, entry');
    ProgressPop(p, calls, entry, entry');
  }

  // The top pair goes back into the list, and its operation out of the bitset.
  method Restore<S, I, O>(ghost p: Problem<S, I, O>, list: Entries, linearized: array<Word>, calls: seq<Frame<S>>, ghost state: S, id: nat)
    requires Pointers(p, list, linearized, calls, state)
    requires calls != [] && id == p.Id(calls[|calls| - 1].entry)
    requires linearized != list.next as object && linearized != list.prev as object
    modifies list.next, list.prev, linearized
    ensures Pointers(p, list, linearized, calls[..|calls| - 1], calls[|calls| - 1].state)
  {
    hide FrameOk, Choice, Done, Saved, IsPrev, IsNext, Linked, StackSaved, Has, Bits, Completable, Viable, Positions;
    var top := calls[|calls| - 1];
    PopOk(p, calls, state);
    ghost var done, next, prev := Done(p, calls[..|calls| - 1]), list.next[..], list.prev[..];
    TopEntry(p, calls, state);
    TopFacts(p, calls, state, list.matching, next, prev);
    GoneLifted(p, done, top.entry);
    PairLive(p, done, top.entry);
    Clear(linearized, id);
    list.Unlift(top.entry, Gone(p, done));
    BacktrackSaved(p, calls, state, list.matching, next, prev, list.next[..], list.prev[..]);
  }

  lemma TopEntry<S, I, O>(p: Problem<S, I, O>, calls: seq<Frame<S>>, state: S)
    requires StackOk(p, calls, state) && calls != []
    ensures var k := |calls| - 1;
      var c, done := calls[k].entry, Done(p, calls[..k]);
      && 0 < c <= |p.entries| && p.entries[c - 1].CallEntry? && p.Id(c) in p.Rest(done) && c !in Gone(p, done)
      && p.Tried(done, calls[k].state, c) && p.OnlyCalls(done, c) && Done(p, calls) == done + {p.Id(c)}
  {
    hide Viable, Positions;
    assert FrameOk(p, calls, state, |calls| - 1);
  }

  lemma TopFacts<S, I, O>(p: Problem<S, I, O>, calls: seq<Frame<S>>, state: S, matching: seq<int>, next: seq<int>, prev: seq<int>)
    requires StackOk(p, calls, state) && calls != [] && MatchOk(p, matching)
    requires StackSaved(p, calls, matching, next, prev)
    ensures var k := |calls| - 1;
      var c, done := calls[k].entry, Done(p, calls[..k]);
      && Saved(next, prev, Gone(p, done), c, matching[c]) && matching[c] == p.rp[p.Id(c)] + 1
      && Done(p, calls) - {p.Id(c)} == done
  {
    hide Saved, FrameOk, Done, Positions;
    TopEntry(p, calls, state);
    var k := |calls| - 1;
    assert Saved(next, prev, Gone(p, Done(p, calls[..k])), calls[k].entry, matching[calls[k].entry]);
  }

  lemma PairLive<S, I, O>(p: Problem<S, I, O>, done: set<nat>, c: int)
    requires p.WellFormed() && p.IsNode(c) && p.entries[c - 1].CallEntry? && p.Id(c) in p.Rest(done)
    ensures c !in Gone(p, done) && p.rp[p.Id(c)] + 1 !in Gone(p, done)
  {
    var a := p.Id(c);
    assert p.IsNode(p.rp[a] + 1) && p.Id(p.rp[a] + 1) == a;
  }

  lemma HeadIsLive<S, I, O>(p: Problem<S, I, O>, done: set<nat>, list: Entries, x: int)
    requires p.WellFormed() && list.Shape() && list.next.Length == |p.entries| + 1
    requires Linked(list.next[..], list.prev[..], Gone(p, done))
    requires p.IsNode(x) && p.Id(x) in p.Rest(done)
    ensures list.next[0] != NIL
  {
    assert x !in Gone(p, done);
    assert IsNext(Gone(p, done), 0, list.next.Length, list.next[..][0]);
  }

  lemma BacktrackSaved<S, I, O>(p: Problem<S, I, O>, calls: seq<Frame<S>>, state: S, matching: seq<int>,
                                next: seq<int>, prev: seq<int>, next': seq<int>, prev': seq<int>)
    requires StackOk(p, calls, state) && calls != [] && MatchOk(p, matching)
    requires StackSaved(p, calls, matching, next, prev)
    requires SameOn(Gone(p, Done(p, calls[..|calls| - 1])), next, prev, next', prev')
    ensures StackSaved(p, calls[..|calls| - 1], matching, next', prev')
  {
    hide FrameOk, Done, Saved;
    var k := |calls| - 1;
    SavedStays(p, calls, state, matching, k, next, prev, next', prev');
    forall j | 0 <= j < k
      ensures Saved(next', prev', Gone(p, Done(p, calls[..k][..j])), calls[..k][j].entry, matching[calls[..k][j].entry])
    {
      assert calls[..k][..j] == calls[..j];
    }
  }

  // The order in which the calls on the stack were lifted.
  method ListOrder<S, I, O>(history: seq<Entry<I, O>>, calls: seq<Frame<S>>, ghost p: Problem<S, I, O>) returns (order: seq<nat>)
    requires p.entries == history && Nodes(p, calls)
    ensures order == Order(p, calls)
  {
    order := [];
    var i := 0;
    while i < |calls|
      invariant 0 <= i <= |calls| && |order| == i
      invariant forall j :: 0 <= j < i ==> order[j] == p.Id(calls[j].entry)
    {
      order := order + [history[calls[i].entry - 1].id];
      i := i + 1;
    }
  }

  // The call branch of the loop: linearize the call unless the model or the cache forbids it.
  method TryCall<S(!new), I(!new), O(!new)>(
    model: Model<S, I, O>, history: seq<Entry<I, O>>, ghost p: Problem<S, I, O>, list: Entries, linearized: array<Word>,
    cache: Cache<S>, calls: seq<Frame<S>>, state: S, entry: int)
    returns (cache': Cache<S>, calls': seq<Frame<S>>, state': S, entry': int)
    requires p.m == model && p.entries == history && Congruent(model)
    requires SearchOk(p, list, linearized, cache, calls, state, entry)
    requires ScanOk(p, calls, state, entry) && 0 < entry < |list.matching| && list.matching[entry] != NIL
    requires linearized != list.next as object && linearized != list.prev as object
    requires Filed(cache, linearized.Length)
    modifies list.next, list.prev, linearized
    ensures SearchOk(p, list, linearized, cache', calls', state', entry')
    ensures Filed(cache', linearized.Length)
    ensures Progress(p, calls, entry) < Progress(p, calls', entry')
  {
    hide FrameOk, Choice, Done, Saved, IsPrev, IsNext, Linked, StackSaved, CacheOk, Has, Bits, Completable, Viable,
      Progress, Linearizable, HashOf, Filed;
    AtCall(p, list, linearized, calls, state, entry);
    cache', calls', state' := cache, calls, state;
    var id := history[entry - 1].id;
    var (accepted, newState) := model.step(state, history[entry - 1].input, history[list.matching[entry] - 1].output);
    if accepted {
      var newLinearized := Clone(linearized);
      Set(newLinearized, id);
      var newEntry := CacheEntry(newLinearized[..], newState);
      var contained, at := CacheContains(model, cache, newEntry);
      if !contained {
        var hash := Hash(newEntry.linearized);
        calls', entry' := Descend(p, list, linearized, cache, calls, state, entry, id, newState);
        DoneSplit(p, calls, Frame(entry, state));
        CachePush(p, calls, state, Frame(entry, state), newState, cache, newEntry, hash);
        FiledPush(cache, newEntry, linearized.Length);
        cache' := cache[hash := Bucket(cache, hash) + [newEntry]];
        state' := newState;
      } else {
        HitIsDead(p, calls, state, cache, entry, newEntry, HashOf(newEntry.linearized), at);
        entry' := Advance(p, list, linearized, cache, calls, state, entry);
      }
    } else {
      NotAccepted(p, calls, state, entry);
      entry' := Advance(p, list, linearized, cache, calls, state, entry);
    }
  }

  lemma NotAccepted<S, I, O>(p: Problem<S, I, O>, calls: seq<Frame<S>>, state: S, c: int)
    requires StackOk(p, calls, state) && p.IsNode(c) && p.Id(c) in p.Rest(Done(p, calls))
    requires !Accepts(p.m, p.Ops()[p.Id(c)], state)
    ensures !Viable(p.m, p.Ops(), p.Rest(Done(p, calls)), state, p.Id(c))
  {
  }

  // The search before its first step: everything is in the list, nothing is on the stack.
  method Begin<S, I, O>(model: Model<S, I, O>, history: seq<Entry<I, O>>, ghost p: Problem<S, I, O>)
    returns (list: Entries, linearized: array<Word>, entry: int)
    requires p.WellFormed() && p.m == model && p.entries == history
    ensures fresh(list.next) && fresh(list.prev) && fresh(linearized)
    ensures linearized != list.next as object && linearized != list.prev as object
    ensures SearchOk(p, list, linearized, map[], [], model.init, entry)
  {
    hide Choice, Saved, IsPrev, IsNext, Linked, Completable, Viable, HashOf, Has;
    list := MakeLinkedEntries(history, p);
    linearized := NewBitset(|history| / 2);
    entry := list.next[0];
    assert Gone(p, Done(p, [])) == {};
    HeadPointer(list, {});
    LevelStarts(p, [], model.init, entry);
  }

  /** The checker decides linearizability, and returns the order it found.  `cp` and `rp` are the positions of the
      calls and returns that make the history well-formed. */
  method CheckSingle<S(!new), I(!new), O(!new)>(model: Model<S, I, O>, history: seq<Entry<I, O>>, ghost cp: seq<nat>, ghost rp: seq<nat>)
    returns (ok: bool, order: seq<nat>)
    requires Problem(model, history, cp, rp).WellFormed() && Congruent(model)
    ensures ok <==> Linearizable(model, Problem(model, history, cp, rp).Ops())
    ensures ok ==> IsLinearization(model, Problem(model, history, cp, rp).Ops(), All(|cp|), model.init, order)
  {
    ghost var p := Problem(model, history, cp, rp);
    var cache: Cache<S> := map[];
    var calls: seq<Frame<S>> := [];
    var state := model.init;
    var list, linearized, entry := Begin(model, history, p);
    while list.next[0] != NIL
      invariant fresh(list.next) && fresh(list.prev) && fresh(linearized)
      invariant linearized != list.next as object && linearized != list.prev as object
      invariant SearchOk(p, list, linearized, cache, calls, state, entry)
      invariant Filed(cache, linearized.Length)
      decreases Limit(p) - Progress(p, calls, entry)
    {
      hide FrameOk, Choice, Done, Saved, IsPrev, IsNext, Linked, StackSaved, CacheOk, Has, Bits, Completable, Viable,
        Progress, Linearizable, HashOf;
      AtCall(p, list, linearized, calls, state, entry);
      ProgressBound(p, calls, entry);
      if list.matching[entry] != NIL {
        cache, calls, state, entry := TryCall(model, history, p, list, linearized, cache, calls, state, entry);
      } else {
        DeadEnd(p, calls, state, entry);
        if |calls| == 0 {
          NothingDone(p, state);
          return false, [];
        }
        var id := history[calls[|calls| - 1].entry - 1].id;
        calls, state, entry := Backtrack(p, list, linearized, cache, calls, state, entry, id);
      }
    }
    FullStack(p, calls, state);
    order := ListOrder(history, calls, p);
    ok := true;
  }

  lemma NothingDone<S, I, O>(p: Problem<S, I, O>, state: S)
    requires StackOk(p, [], state) && !Completable(p.m, p.Ops(), p.Rest(Done(p, [])), state)
    ensures !Linearizable(p.m, p.Ops())
  {
    CompletableIffLinearizable(p.m, p.Ops());
    assert p.Rest({}) == All(|p.cp|);
  }
}
