/** The meaning of the checker: a history is linearizable when some order of all its operations respects
    real time and is accepted, step by step, by a sequential model.
 */
module Linearizability {

  datatype Operation<I, O> = Operation(clientId: int, input: I, call: int, output: O, ret: int)

  // `step` says whether the model accepts an input with its output in a state, and the state after it.
  datatype Model<!S, !I, !O> = Model(init: S, step: (S, I, O) -> (bool, S), equal: (S, S) -> bool)

  // States the model calls equal accept the same and stay equal.
  ghost predicate Congruent<S(!new), I(!new), O(!new)>(m: Model<S, I, O>) {
    && (forall s :: m.equal(s, s))
    && (forall s, t, i, o :: m.equal(s, t) ==>
          m.step(s, i, o).0 == m.step(t, i, o).0 && (m.step(s, i, o).0 ==> m.equal(m.step(s, i, o).1, m.step(t, i, o).1)))
  }

  // Operation `a` returned before operation `b` was called.
  ghost predicate Precedes<I, O>(ops: seq<Operation<I, O>>, a: nat, b: nat)
    requires a < |ops| && b < |ops|
  {
    ops[a].ret < ops[b].call
  }

  ghost predicate Within(n: nat, u: set<nat>) {
    forall a :: a in u ==> a < n
  }

  ghost function All(n: nat): (u: set<nat>)
    ensures forall a: nat :: a in u <==> a < n
  {
    if n == 0 then {} else All(n - 1) + {n - 1}
  }

  predicate Accepts<S, I, O>(m: Model<S, I, O>, op: Operation<I, O>, s: S) {
    m.step(s, op.input, op.output).0
  }

  function After<S, I, O>(m: Model<S, I, O>, op: Operation<I, O>, s: S): S {
    m.step(s, op.input, op.output).1
  }

  // ---------------------------------------------------------------- the simple definition

  // The model accepts the operations in this order, starting from `s`.
  ghost predicate Legal<S, I, O>(m: Model<S, I, O>, ops: seq<Operation<I, O>>, order: seq<nat>, s: S)
    requires forall k :: 0 <= k < |order| ==> order[k] < |ops|
  {
    order == [] || (Accepts(m, ops[order[0]], s) && Legal(m, ops, order[1..], After(m, ops[order[0]], s)))
  }

  ghost predicate RespectsTime<I, O>(ops: seq<Operation<I, O>>, order: seq<nat>)
    requires forall k :: 0 <= k < |order| ==> order[k] < |ops|
  {
    forall i, j :: 0 <= i < j < |order| ==> !Precedes(ops, order[j], order[i])
  }

  // `order` lists the members of `u`, each once.
  ghost predicate Lists(u: set<nat>, order: seq<nat>) {
    && (forall a :: a in u ==> a in order)
    && (forall k :: 0 <= k < |order| ==> order[k] in u)
    && (forall i, j :: 0 <= i < j < |order| ==> order[i] != order[j])
  }

  ghost predicate IsLinearization<S, I, O>(m: Model<S, I, O>, ops: seq<Operation<I, O>>, u: set<nat>, s: S, order: seq<nat>)
    requires Within(|ops|, u)
  {
    Lists(u, order) && RespectsTime(ops, order) && Legal(m, ops, order, s)
  }

  ghost predicate Linearizable<S, I, O>(m: Model<S, I, O>, ops: seq<Operation<I, O>>) {
    exists order :: IsLinearization(m, ops, All(|ops|), m.init, order)
  }

  // ---------------------------------------------------------------- one choice at a time

  // No operation still in `u` had returned when `a` was called.
  ghost predicate Minimal<I, O>(ops: seq<Operation<I, O>>, u: set<nat>, a: nat)
    requires Within(|ops|, u)
  {
    a in u && forall b :: b in u && b != a ==> !Precedes(ops, b, a)
  }

  // The operations in `u` can be linearized from state `s`.
  ghost predicate Completable<S, I, O>(m: Model<S, I, O>, ops: seq<Operation<I, O>>, u: set<nat>, s: S)
    requires Within(|ops|, u)
    decreases |u|
  {
    u == {} || exists a: nat :: Minimal(ops, u, a) && Viable(m, ops, u, s, a)
  }

  // `a` may come next: the model accepts it and the rest can be linearized behind it.
  ghost predicate Viable<S, I, O>(m: Model<S, I, O>, ops: seq<Operation<I, O>>, u: set<nat>, s: S, a: nat)
    requires Within(|ops|, u) && a in u
    decreases |u|, 0
  {
    Smaller(u, a);
    Accepts(m, ops[a], s) && Completable(m, ops, u - {a}, After(m, ops[a], s))
  }

  lemma Smaller(u: set<nat>, a: nat)
    requires a in u
    ensures |u - {a}| < |u|
  {
  }

  lemma {:induction false} CompletableListed<S, I, O>(m: Model<S, I, O>, ops: seq<Operation<I, O>>, u: set<nat>, s: S)
    requires Within(|ops|, u) && Completable(m, ops, u, s)
    ensures exists order :: IsLinearization(m, ops, u, s, order)
    decreases |u|
  {
    if u == {} {
      assert IsLinearization(m, ops, u, s, []);
    } else {
      var a: nat :| Minimal(ops, u, a) && Viable(m, ops, u, s, a);
      CompletableListed(m, ops, u - {a}, After(m, ops[a], s));
      var rest :| IsLinearization(m, ops, u - {a}, After(m, ops[a], s), rest);
      Prepend(m, ops, u, s, a, rest);
    }
  }

  lemma {:induction false} Prepend<S, I, O>(m: Model<S, I, O>, ops: seq<Operation<I, O>>, u: set<nat>, s: S, a: nat, rest: seq<nat>)
    requires Within(|ops|, u) && Minimal(ops, u, a) && Accepts(m, ops[a], s)
    requires IsLinearization(m, ops, u - {a}, After(m, ops[a], s), rest)
    ensures IsLinearization(m, ops, u, s, [a] + rest)
  {
    var order := [a] + rest;
    assert order[1..] == rest;
    forall i, j | 0 <= i < j < |order|
      ensures order[i] in u && order[j] in u
      ensures order[i] != order[j] && !Precedes(ops, order[j], order[i])
    {
      assert order[j] == rest[j - 1] && rest[j - 1] in u - {a};
      if i > 0 {
        assert order[i] == rest[i - 1];
      }
    }
  }

  lemma {:induction false} ListedCompletable<S, I, O>(m: Model<S, I, O>, ops: seq<Operation<I, O>>, u: set<nat>, s: S, order: seq<nat>)
    requires Within(|ops|, u) && IsLinearization(m, ops, u, s, order)
    ensures Completable(m, ops, u, s)
    decreases |order|
  {
    if order == [] {
      assert u == {};
    } else {
      var a, rest := order[0], order[1..];
      Tail(m, ops, u, s, order);
      ListedCompletable(m, ops, u - {a}, After(m, ops[a], s), rest);
      assert Minimal(ops, u, a) && Viable(m, ops, u, s, a);
    }
  }

  lemma {:induction false} Tail<S, I, O>(m: Model<S, I, O>, ops: seq<Operation<I, O>>, u: set<nat>, s: S, order: seq<nat>)
    requires Within(|ops|, u) && IsLinearization(m, ops, u, s, order) && order != []
    ensures Minimal(ops, u, order[0])
    ensures Accepts(m, ops[order[0]], s)
    ensures IsLinearization(m, ops, u - {order[0]}, After(m, ops[order[0]], s), order[1..])
  {
    var a, rest := order[0], order[1..];
    assert forall i :: 0 <= i < |rest| ==> rest[i] == order[i + 1];
    forall b | b in u - {a} ensures b in rest {
      var i :| 0 <= i < |order| && order[i] == b;
      assert rest[i - 1] == b;
    }
    forall b | b in u && b != a ensures !Precedes(ops, b, a) {
      var i :| 0 <= i < |order| && order[i] == b;
    }
  }

  /** Choosing minimal operations one at a time is the same as finding a whole order. */
  lemma CompletableIffLinearizable<S, I, O>(m: Model<S, I, O>, ops: seq<Operation<I, O>>)
    ensures Completable(m, ops, All(|ops|), m.init) <==> Linearizable(m, ops)
  {
    if Completable(m, ops, All(|ops|), m.init) {
      CompletableListed(m, ops, All(|ops|), m.init);
    }
    if Linearizable(m, ops) {
      var order :| IsLinearization(m, ops, All(|ops|), m.init, order);
      ListedCompletable(m, ops, All(|ops|), m.init, order);
    }
  }

  // ---------------------------------------------------------------- what it does not depend on

  // Equal states can complete the same operations.
  lemma {:induction false} EqualStates<S(!new), I(!new), O(!new)>(m: Model<S, I, O>, ops: seq<Operation<I, O>>, u: set<nat>, s: S, t: S)
    requires Within(|ops|, u) && Congruent(m) && m.equal(s, t)
    requires Completable(m, ops, u, s)
    ensures Completable(m, ops, u, t)
    decreases |u|
  {
    if u != {} {
      var a: nat :| Minimal(ops, u, a) && Viable(m, ops, u, s, a);
      Smaller(u, a);
      EqualStates(m, ops, u - {a}, After(m, ops[a], s), After(m, ops[a], t));
      assert Viable(m, ops, u, t, a);
    }
  }

  /** Operation `i` of `ops` is operation `f[i]` of `ops'`, with the same real-time order. */
  ghost predicate Embeds<I, O>(ops: seq<Operation<I, O>>, ops': seq<Operation<I, O>>, f: seq<nat>) {
    && |f| == |ops|
    && (forall i :: 0 <= i < |f| ==> f[i] < |ops'| && ops[i].input == ops'[f[i]].input && ops[i].output == ops'[f[i]].output)
    && (forall i, j :: 0 <= i < |f| && 0 <= j < |f| ==> (Precedes(ops, i, j) <==> Precedes(ops', f[i], f[j])))
    && (forall i, j :: 0 <= i < j < |f| ==> f[i] != f[j])
  }

  ghost function Image(f: seq<nat>, u: set<nat>): set<nat>
    requires Within(|f|, u)
  {
    set i | i in u :: f[i]
  }

  lemma ImageWithin<I, O>(ops: seq<Operation<I, O>>, ops': seq<Operation<I, O>>, f: seq<nat>, u: set<nat>)
    requires Embeds(ops, ops', f) && Within(|ops|, u)
    ensures Within(|ops'|, Image(f, u))
    ensures forall a :: a in u ==> f[a] in Image(f, u) && Image(f, u - {a}) == Image(f, u) - {f[a]}
    ensures forall a :: a in u ==> (Minimal(ops, u, a) <==> Minimal(ops', Image(f, u), f[a]))
  {
    forall a | a in u
      ensures Image(f, u - {a}) == Image(f, u) - {f[a]}
      ensures Minimal(ops, u, a) <==> Minimal(ops', Image(f, u), f[a])
    {
      forall b | b in u && b != a ensures f[b] != f[a] {
      }
      if Minimal(ops', Image(f, u), f[a]) {
        forall b | b in u && b != a ensures !Precedes(ops, b, a) {
          assert f[b] in Image(f, u);
        }
      }
    }
  }

  /** Only inputs, outputs and the order of calls and returns matter, not the times or the numbering. */
  lemma {:induction false} EmbeddedCompletable<S, I, O>(
    m: Model<S, I, O>, ops: seq<Operation<I, O>>, ops': seq<Operation<I, O>>, f: seq<nat>, u: set<nat>, s: S)
    requires Embeds(ops, ops', f) && Within(|ops|, u) && Within(|ops'|, Image(f, u))
    ensures Completable(m, ops, u, s) <==> Completable(m, ops', Image(f, u), s)
    decreases |u|, 2
  {
    ImageWithin(ops, ops', f, u);
    if Completable(m, ops, u, s) {
      EmbedForth(m, ops, ops', f, u, s);
    }
    if Completable(m, ops', Image(f, u), s) {
      EmbedBack(m, ops, ops', f, u, s);
    }
  }

  lemma {:induction false} EmbedForth<S, I, O>(
    m: Model<S, I, O>, ops: seq<Operation<I, O>>, ops': seq<Operation<I, O>>, f: seq<nat>, u: set<nat>, s: S)
    requires Embeds(ops, ops', f) && Within(|ops|, u) && Within(|ops'|, Image(f, u))
    requires Completable(m, ops, u, s)
    ensures Completable(m, ops', Image(f, u), s)
    decreases |u|, 0
  {
    if u != {} {
      ImageWithin(ops, ops', f, u);
      var a: nat :| Minimal(ops, u, a) && Viable(m, ops, u, s, a);
      Smaller(u, a);
      EmbeddedCompletable(m, ops, ops', f, u - {a}, After(m, ops[a], s));
      assert Minimal(ops', Image(f, u), f[a]) && Viable(m, ops', Image(f, u), s, f[a]);
    }
  }

  lemma {:induction false} EmbedBack<S, I, O>(
    m: Model<S, I, O>, ops: seq<Operation<I, O>>, ops': seq<Operation<I, O>>, f: seq<nat>, u: set<nat>, s: S)
    requires Embeds(ops, ops', f) && Within(|ops|, u) && Within(|ops'|, Image(f, u))
    requires Completable(m, ops', Image(f, u), s)
    ensures Completable(m, ops, u, s)
    decreases |u|, 1
  {
    if u != {} {
      ImageWithin(ops, ops', f, u);
      var x :| x in u;
      assert f[x] in Image(f, u);
      var b: nat :| Minimal(ops', Image(f, u), b) && Viable(m, ops', Image(f, u), s, b);
      var a: nat :| a in u && f[a] == b;
      EmbedBackStep(m, ops, ops', f, u, s, a);
    }
  }

  lemma {:induction false} EmbedBackStep<S, I, O>(
    m: Model<S, I, O>, ops: seq<Operation<I, O>>, ops': seq<Operation<I, O>>, f: seq<nat>, u: set<nat>, s: S, a: nat)
    requires Embeds(ops, ops', f) && Within(|ops|, u) && Within(|ops'|, Image(f, u)) && a in u
    requires Minimal(ops, u, a) && f[a] in Image(f, u) && Viable(m, ops', Image(f, u), s, f[a])
    ensures Completable(m, ops, u, s)
    decreases |u|, 0
  {
    ImageWithin(ops, ops', f, u);
    Smaller(u, a);
    EmbeddedCompletable(m, ops, ops', f, u - {a}, After(m, ops[a], s));
    assert Viable(m, ops, u, s, a);
  }
}
