/** What the checker's depth-first search knows at each moment, apart from the pointers and the cache words.

    The stack of lifted calls is a partial linearization.  Every choice that was passed over is a dead end,
    and every configuration in the cache is a dead end too unless it lies on the stack right now.
 */
module Search {
  import opened Linearizability

  datatype Entry<I, O> =
    | CallEntry(id: nat, input: I, time: int, clientId: int)
    | ReturnEntry(id: nat, output: O, time: int, clientId: int)

  // Every operation has one call, at its place in `cp`, and later one return, at its place in `rp`.
  ghost predicate Positions<I, O>(entries: seq<Entry<I, O>>, cp: seq<nat>, rp: seq<nat>) {
    && |cp| == |rp| && |entries| == 2 * |cp|
    && (forall a :: 0 <= a < |cp| ==>
          && cp[a] < rp[a] < |entries|
          && entries[cp[a]].CallEntry? && entries[cp[a]].id == a
          && entries[rp[a]].ReturnEntry? && entries[rp[a]].id == a)
    && (forall p :: 0 <= p < |entries| ==>
          entries[p].id < |cp| && p == if entries[p].CallEntry? then cp[entries[p].id] else rp[entries[p].id])
  }

  /** A model and a history of entries.  `cp` and `rp` give, for each operation, the positions of its call
      and of its return among the entries. */
  datatype Problem<!S, !I, !O> = Problem(m: Model<S, I, O>, entries: seq<Entry<I, O>>, cp: seq<nat>, rp: seq<nat>) {

    ghost predicate WellFormed() {
      Positions(entries, cp, rp)
    }

    // The operations of the history, with positions for times.
    ghost function Ops(): (ops: seq<Operation<I, O>>)
      requires WellFormed()
      ensures |ops| == |cp|
      ensures forall a :: 0 <= a < |cp| ==> ops[a].input == entries[cp[a]].input && ops[a].output == entries[rp[a]].output
      ensures forall a :: 0 <= a < |cp| ==> ops[a].call == cp[a] && ops[a].ret == rp[a]
    {
      seq(|cp|, a requires 0 <= a < |cp| =>
        Operation(entries[cp[a]].clientId, entries[cp[a]].input, cp[a], entries[rp[a]].output, rp[a]))
    }

    // The operations not yet linearized.
    ghost function Rest(done: set<nat>): (u: set<nat>)
      requires WellFormed()
      ensures Within(|Ops()|, u)
    {
      All(|cp|) - done
    }

    // Node p of the list is entry p - 1.
    ghost predicate IsNode(p: int) {
      1 <= p <= |entries|
    }

    ghost function Id(p: int): nat
      requires IsNode(p)
    {
      entries[p - 1].id
    }

    // All calls before node `p` that are still to be linearized lead nowhere from state `s`.
    ghost predicate Tried(done: set<nat>, s: S, p: int)
      requires WellFormed()
    {
      forall a: nat :: a in Rest(done) && cp[a] + 1 < p ==> !Viable(m, Ops(), Rest(done), s, a)
    }

    // No return before node `p` is still in the list.
    ghost predicate OnlyCalls(done: set<nat>, p: int)
      requires WellFormed()
    {
      forall a: nat :: a in Rest(done) ==> p <= rp[a] + 1
    }
  }

  // One lifted call: its node, and the state before it.
  datatype Frame<S> = Frame(entry: int, state: S)

  ghost function Done<S, I, O>(p: Problem<S, I, O>, calls: seq<Frame<S>>): set<nat>
    requires forall j :: 0 <= j < |calls| ==> p.IsNode(calls[j].entry)
  {
    if calls == [] then {} else Done(p, calls[..|calls| - 1]) + {p.Id(calls[|calls| - 1].entry)}
  }

  // The state after the first `j` calls.
  ghost function StateAt<S>(calls: seq<Frame<S>>, state: S, j: nat): S
    requires j <= |calls|
  {
    if j < |calls| then calls[j].state else state
  }

  // Call `c` was a possible next choice behind `done`, and all choices before it had been tried.
  ghost predicate Choice<S, I, O>(p: Problem<S, I, O>, done: set<nat>, s: S, c: int)
    requires p.WellFormed()
  {
    && p.IsNode(c) && p.entries[c - 1].CallEntry? && p.Id(c) in p.Rest(done)
    && Accepts(p.m, p.Ops()[p.Id(c)], s)
    && p.Tried(done, s, c) && p.OnlyCalls(done, c)
  }

  ghost predicate Nodes<S, I, O>(p: Problem<S, I, O>, calls: seq<Frame<S>>) {
    forall j :: 0 <= j < |calls| ==> p.IsNode(calls[j].entry)
  }

  ghost predicate FrameOk<S, I, O>(p: Problem<S, I, O>, calls: seq<Frame<S>>, state: S, j: nat)
    requires p.WellFormed() && Nodes(p, calls) && j < |calls|
  {
    && Choice(p, Done(p, calls[..j]), calls[j].state, calls[j].entry)
    && StateAt(calls, state, j + 1) == After(p.m, p.Ops()[p.Id(calls[j].entry)], calls[j].state)
  }

  ghost predicate StackOk<S, I, O>(p: Problem<S, I, O>, calls: seq<Frame<S>>, state: S) {
    && p.WellFormed() && Nodes(p, calls)
    && StateAt(calls, state, 0) == p.m.init
    && forall j :: 0 <= j < |calls| ==> FrameOk(p, calls, state, j)
  }

  // The search stands at node `entry`, behind everything it has tried at this level.
  ghost predicate ScanOk<S, I, O>(p: Problem<S, I, O>, calls: seq<Frame<S>>, state: S, entry: int)
    requires StackOk(p, calls, state)
  {
    var done := Done(p, calls);
    p.IsNode(entry) && p.Id(entry) in p.Rest(done) && p.Tried(done, state, entry) && p.OnlyCalls(done, entry)
  }

  // ---------------------------------------------------------------- the stack

  lemma DoneSplit<S, I, O>(p: Problem<S, I, O>, calls: seq<Frame<S>>, f: Frame<S>)
    requires Nodes(p, calls) && p.IsNode(f.entry)
    ensures Nodes(p, calls + [f])
    ensures Done(p, calls + [f]) == Done(p, calls) + {p.Id(f.entry)}
    ensures forall j :: 0 <= j <= |calls| ==> (calls + [f])[..j] == calls[..j]
  {
    assert (calls + [f])[..|calls|] == calls;
  }

  lemma PushOk<S, I, O>(p: Problem<S, I, O>, calls: seq<Frame<S>>, state: S, c: int)
    requires StackOk(p, calls, state) && ScanOk(p, calls, state, c)
    requires p.entries[c - 1].CallEntry? && Accepts(p.m, p.Ops()[p.Id(c)], state)
    ensures StackOk(p, calls + [Frame(c, state)], After(p.m, p.Ops()[p.Id(c)], state))
  {
    var calls', state' := calls + [Frame(c, state)], After(p.m, p.Ops()[p.Id(c)], state);
    DoneSplit(p, calls, Frame(c, state));
    forall j | 0 <= j < |calls'| ensures FrameOk(p, calls', state', j) {
      if j < |calls| {
        assert FrameOk(p, calls, state, j);
        assert calls'[..j] == calls[..j];
        assert StateAt(calls', state', j + 1) == StateAt(calls, state, j + 1);
      } else {
        assert calls'[..j] == calls;
      }
    }
  }

  lemma PopOk<S, I, O>(p: Problem<S, I, O>, calls: seq<Frame<S>>, state: S)
    requires StackOk(p, calls, state) && calls != []
    ensures var k := |calls| - 1;
      StackOk(p, calls[..k], calls[k].state)
  {
    var k := |calls| - 1;
    var calls', state' := calls[..k], calls[k].state;
    forall j | 0 <= j < k ensures FrameOk(p, calls', state', j) {
      assert FrameOk(p, calls, state, j);
      assert calls'[..j] == calls[..j];
    }
  }

  // At the first return in the list every possible next operation has been tried.
  lemma DeadEnd<S, I, O>(p: Problem<S, I, O>, calls: seq<Frame<S>>, state: S, entry: int)
    requires StackOk(p, calls, state) && ScanOk(p, calls, state, entry)
    requires p.entries[entry - 1].ReturnEntry?
    ensures !Completable(p.m, p.Ops(), p.Rest(Done(p, calls)), state)
  {
    var u, e := p.Rest(Done(p, calls)), p.Id(entry);
    forall a: nat | Minimal(p.Ops(), u, a) ensures !Viable(p.m, p.Ops(), u, state, a) {
      assert a != e ==> !Precedes(p.Ops(), e, a);
      assert p.cp[a] < p.rp[a];
      assert p.cp[a] + 1 < entry;
    }
  }

  // The choice on top of the stack is dead when nothing behind it can be completed.
  lemma TopIsDead<S, I, O>(p: Problem<S, I, O>, calls: seq<Frame<S>>, state: S)
    requires StackOk(p, calls, state) && calls != []
    requires !Completable(p.m, p.Ops(), p.Rest(Done(p, calls)), state)
    ensures var k := |calls| - 1;
      && p.Id(calls[k].entry) in p.Rest(Done(p, calls[..k]))
      && !Viable(p.m, p.Ops(), p.Rest(Done(p, calls[..k])), calls[k].state, p.Id(calls[k].entry))
  {
    var k := |calls| - 1;
    assert FrameOk(p, calls, state, k);
    assert p.Rest(Done(p, calls)) == p.Rest(Done(p, calls[..k])) - {p.Id(calls[k].entry)};
  }

  // Moving on from a dead call to the next node that is still in the list.
  lemma MoveOn<S, I, O>(p: Problem<S, I, O>, calls: seq<Frame<S>>, state: S, c: int, q: int)
    requires StackOk(p, calls, state)
    requires p.IsNode(c) && p.entries[c - 1].CallEntry? && p.Id(c) in p.Rest(Done(p, calls))
    requires p.Tried(Done(p, calls), state, c) && p.OnlyCalls(Done(p, calls), c)
    requires !Viable(p.m, p.Ops(), p.Rest(Done(p, calls)), state, p.Id(c))
    requires p.IsNode(q) && c < q && p.Id(q) in p.Rest(Done(p, calls))
    requires forall x :: c < x < q ==> p.IsNode(x) && p.Id(x) !in p.Rest(Done(p, calls))
    ensures ScanOk(p, calls, state, q)
  {
    var done := Done(p, calls);
    forall a: nat | a in p.Rest(done) && p.cp[a] + 1 < q ensures !Viable(p.m, p.Ops(), p.Rest(done), state, a) {
      var x := p.cp[a] + 1;
      assert p.IsNode(x) && p.Id(x) == a;
    }
    forall a: nat | a in p.Rest(done) ensures q <= p.rp[a] + 1 {
      var x := p.rp[a] + 1;
      assert p.IsNode(x) && p.Id(x) == a;
    }
  }

  // ---------------------------------------------------------------- the answer

  ghost function Order<S, I, O>(p: Problem<S, I, O>, calls: seq<Frame<S>>): (order: seq<nat>)
    requires Nodes(p, calls)
    ensures |order| == |calls| && forall j :: 0 <= j < |calls| ==> order[j] == p.Id(calls[j].entry)
  {
    seq(|calls|, j requires 0 <= j < |calls| => p.Id(calls[j].entry))
  }

  lemma {:induction false} DoneMembers<S, I, O>(p: Problem<S, I, O>, calls: seq<Frame<S>>, a: nat)
    requires Nodes(p, calls)
    ensures a in Done(p, calls) <==> exists j :: 0 <= j < |calls| && p.Id(calls[j].entry) == a
  {
    if calls != [] {
      DoneMembers(p, calls[..|calls| - 1], a);
    }
  }

  lemma {:induction false} DoneGrows<S, I, O>(p: Problem<S, I, O>, calls: seq<Frame<S>>, i: nat, j: nat)
    requires Nodes(p, calls) && i <= j <= |calls|
    ensures Done(p, calls[..i]) <= Done(p, calls[..j])
    decreases j
  {
    if i < j {
      DoneGrows(p, calls, i, j - 1);
      assert calls[..j][..j - 1] == calls[..j - 1];
    }
  }

  // A call that was chosen has no operation left behind it that returned earlier.
  lemma FrameMinimal<S, I, O>(p: Problem<S, I, O>, calls: seq<Frame<S>>, state: S, i: nat, j: nat)
    requires StackOk(p, calls, state) && i < j < |calls|
    ensures var a, b := p.Id(calls[i].entry), p.Id(calls[j].entry);
      a < |p.Ops()| && b < |p.Ops()| && a != b && !Precedes(p.Ops(), b, a)
  {
    assert FrameOk(p, calls, state, i) && FrameOk(p, calls, state, j);
    var a, b := p.Id(calls[i].entry), p.Id(calls[j].entry);
    DoneMembers(p, calls[..j], a);
    assert calls[..j][i] == calls[i];
    DoneGrows(p, calls, i, j);
    assert b in p.Rest(Done(p, calls[..i]));
  }

  lemma {:induction false} LegalSuffix<S, I, O>(p: Problem<S, I, O>, calls: seq<Frame<S>>, state: S, j: nat)
    requires StackOk(p, calls, state) && j <= |calls|
    ensures forall k :: 0 <= k < |calls| ==> Order(p, calls)[k] < |p.Ops()|
    ensures Legal(p.m, p.Ops(), Order(p, calls)[j..], StateAt(calls, state, j))
    decreases |calls| - j
  {
    forall k | 0 <= k < |calls| ensures Order(p, calls)[k] < |p.Ops()| {
      assert FrameOk(p, calls, state, k);
    }
    if j < |calls| {
      LegalSuffix(p, calls, state, j + 1);
      assert FrameOk(p, calls, state, j);
      assert Order(p, calls)[j..][1..] == Order(p, calls)[j + 1..];
    }
  }

  /** When nothing is left in the list, the stack is a linearization of the whole history. */
  lemma FullStack<S, I, O>(p: Problem<S, I, O>, calls: seq<Frame<S>>, state: S)
    requires StackOk(p, calls, state) && p.Rest(Done(p, calls)) == {}
    ensures IsLinearization(p.m, p.Ops(), All(|p.Ops()|), p.m.init, Order(p, calls))
  {
    var order := Order(p, calls);
    LegalSuffix(p, calls, state, 0);
    assert order[0..] == order;
    forall i, j | 0 <= i < j < |order| ensures order[i] != order[j] && !Precedes(p.Ops(), order[j], order[i]) {
      FrameMinimal(p, calls, state, i, j);
    }
    forall a | a in All(|p.Ops()|) ensures a in order {
      DoneMembers(p, calls, a);
      var j :| 0 <= j < |calls| && p.Id(calls[j].entry) == a;
      assert order[j] == a;
    }
  }
}
