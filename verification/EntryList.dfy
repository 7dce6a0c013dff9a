/** The doubly linked list of a history's entries, on which the checker lifts operations out and puts
    them back.  Nodes are numbered: node 0 is the head, node p is entry p - 1, and NIL is no node.
 */
module EntryList {

  const NIL := -1

  // `q` is the first node behind `p` that is not in `gone`, or NIL when there is none among `n` nodes.
  ghost predicate IsNext(gone: set<int>, p: int, n: int, q: int) {
    || (q == NIL && forall x :: p < x < n ==> x in gone)
    || (p < q < n && q !in gone && forall x :: p < x < q ==> x in gone)
  }

  ghost predicate IsPrev(gone: set<int>, p: int, q: int) {
    || (q == NIL && forall x :: 0 <= x < p ==> x in gone)
    || (0 <= q < p && q !in gone && forall x :: q < x < p ==> x in gone)
  }

  // The pointers of the nodes outside `gone` form the list of exactly those nodes, in order.
  ghost predicate Linked(next: seq<int>, prev: seq<int>, gone: set<int>) {
    && |next| == |prev|
    && forall p :: 0 <= p < |next| && p !in gone ==> IsNext(gone, p, |next|, next[p]) && IsPrev(gone, p, prev[p])
  }

  // A lifted pair still points to where it belongs: `c` in the list without `gone`, `r` in that list without `c`.
  ghost predicate Saved(next: seq<int>, prev: seq<int>, gone: set<int>, c: int, r: int) {
    && |next| == |prev| && 0 < c < r < |next|
    && IsNext(gone, c, |next|, next[c]) && IsPrev(gone, c, prev[c])
    && IsNext(gone + {c}, r, |next|, next[r]) && IsPrev(gone + {c}, r, prev[r])
  }

  // Taking `x` out: its neighbours point past it.
  ghost function Unlinked(next: seq<int>, prev: seq<int>, x: int): (seq<int>, seq<int>)
    requires |next| == |prev| && 0 <= x < |next| && 0 <= prev[x] < |next| && NIL <= next[x] < |next|
  {
    (next[prev[x] := next[x]], if next[x] == NIL then prev else prev[next[x] := prev[x]])
  }

  // Putting `x` back: its neighbours point to it again.
  ghost function Relinked(next: seq<int>, prev: seq<int>, x: int): (seq<int>, seq<int>)
    requires |next| == |prev| && 0 <= x < |next| && 0 <= prev[x] < |next| && NIL <= next[x] < |next|
  {
    (next[prev[x] := x], if next[x] == NIL then prev else prev[next[x] := x])
  }

  // A node's neighbours when `x`, whose own neighbours are `a` and `b`, is taken out.
  lemma Skip(gone: set<int>, n: int, x: int, a: int, b: int, p: int, q: int, o: int)
    requires 0 < x < n && IsNext(gone, x, n, b) && IsPrev(gone, x, a) && x !in gone
    requires 0 <= p < n && p !in gone && p != x && IsNext(gone, p, n, q) && IsPrev(gone, p, o)
    ensures q == x <==> p == a
    ensures o == x <==> p == b
    ensures IsNext(gone + {x}, p, n, if p == a then b else q)
    ensures IsPrev(gone + {x}, p, if p == b then a else o)
  {
  }

  // A node's neighbours when `x` is put back between `a` and `b`.
  lemma Unskip(gone: set<int>, n: int, x: int, a: int, b: int, p: int, q: int, o: int)
    requires 0 < x < n && IsNext(gone, x, n, b) && IsPrev(gone, x, a) && x !in gone
    requires 0 <= p < n && p !in gone && p != x && IsNext(gone + {x}, p, n, q) && IsPrev(gone + {x}, p, o)
    ensures IsNext(gone, p, n, if p == a then x else q)
    ensures IsPrev(gone, p, if p == b then x else o)
  {
  }

  lemma UnlinkKeeps(next: seq<int>, prev: seq<int>, gone: set<int>, x: int)
    requires Linked(next, prev, gone) && 0 !in gone && x !in gone && 0 < x < |next|
    ensures 0 <= prev[x] < x && NIL <= next[x] < |next|
    ensures var (n', p') := Unlinked(next, prev, x);
      && Linked(n', p', gone + {x})
      && n'[x] == next[x] && p'[x] == prev[x]
      && forall y :: 0 <= y < |next| && y in gone ==> n'[y] == next[y] && p'[y] == prev[y]
  {
    var a, b := prev[x], next[x];
    assert IsNext(gone, x, |next|, b) && IsPrev(gone, x, a);
    assert (0 <= a < x && a !in gone) && (b == NIL || (x < b < |next| && b !in gone));
    var (n', p') := Unlinked(next, prev, x);
    hide IsNext, IsPrev;
    forall p | 0 <= p < |next| && p !in gone + {x}
      ensures IsNext(gone + {x}, p, |next|, n'[p]) && IsPrev(gone + {x}, p, p'[p])
    {
      Skip(gone, |next|, x, a, b, p, next[p], prev[p]);
    }
  }

  /** Unlinking is undone by relinking, as long as the node kept its own pointers. */
  lemma RelinkKeeps(next: seq<int>, prev: seq<int>, gone: set<int>, x: int)
    requires Linked(next, prev, gone + {x}) && 0 !in gone && x !in gone && 0 < x < |next|
    requires IsNext(gone, x, |next|, next[x]) && IsPrev(gone, x, prev[x])
    ensures 0 <= prev[x] < x && NIL <= next[x] < |next|
    ensures var (n', p') := Relinked(next, prev, x);
      && Linked(n', p', gone)
      && forall y :: 0 <= y < |next| && y in gone ==> n'[y] == next[y] && p'[y] == prev[y]
  {
    var a, b := prev[x], next[x];
    assert (0 <= a < x && a !in gone) && (b == NIL || (x < b < |next| && b !in gone));
    var (n', p') := Relinked(next, prev, x);
    hide IsNext, IsPrev;
    forall p | 0 <= p < |next| && p !in gone
      ensures IsNext(gone, p, |next|, n'[p]) && IsPrev(gone, p, p'[p])
    {
      if p != x {
        Unskip(gone, |next|, x, a, b, p, next[p], prev[p]);
      }
    }
  }

  // Node `node` goes in front of `mark`, behind whatever was there.
  ghost function Inserted(next: seq<int>, prev: seq<int>, node: int, mark: int): (seq<int>, seq<int>)
    requires |next| == |prev| && 0 <= node < |next| && NIL <= mark < |next|
    requires mark != NIL ==> NIL <= prev[mark] < |next|
  {
    if mark == NIL then (next, prev)
    else if prev[mark] == NIL then (next[node := mark], prev[mark := node])
    else (next[node := mark][prev[mark] := node], prev[mark := node][node := prev[mark]])
  }

  lemma RelinkedIs(next: seq<int>, prev: seq<int>, x: int)
    requires |next| == |prev| && 0 <= x < |next| && 0 <= prev[x] < |next| && NIL <= next[x] < |next|
    ensures Relinked(next, prev, x) == (next[prev[x] := x], if next[x] == NIL then prev else prev[next[x] := x])
  {
  }

  // Putting a lifted pair back, the return first.
  lemma UnliftKeeps(next: seq<int>, prev: seq<int>, gone: set<int>, c: int, r: int)
    requires 0 !in gone && c !in gone && r !in gone
    requires Linked(next, prev, gone + {c, r}) && Saved(next, prev, gone, c, r)
    ensures 0 <= prev[r] < |next| && NIL <= next[r] < |next|
    ensures
      var (n1, p1) := Relinked(next, prev, r);
      && 0 <= p1[c] < |next| && 0 <= n1[c] < |next|
      && var (n2, p2) := Relinked(n1, p1, c);
         && Linked(n2, p2, gone)
         && forall y :: 0 <= y < |next| && y in gone ==> n2[y] == next[y] && p2[y] == prev[y]
  {
    assert next[c] != NIL;
    assert gone + {c} + {r} == gone + {c, r};
    RelinkKeeps(next, prev, gone + {c}, r);
    hide IsNext, IsPrev, Linked;
    var (n1, p1) := Relinked(next, prev, r);
    RelinkKeeps(n1, p1, gone, c);
  }

  class Entries {
    const next: array<int>
    const prev: array<int>
    // by node: the return that matches a call, NIL for a return and for the head
    const matching: seq<int>

    ghost predicate Shape()
      reads next, prev
    {
      && next != prev && next.Length == prev.Length == |matching|
      && forall c :: 0 <= c < |matching| && matching[c] != NIL ==> 0 < c < matching[c] < |matching|
    }

    constructor (n: nat, matching: seq<int>)
      requires |matching| == n
      requires forall c :: 0 <= c < |matching| && matching[c] != NIL ==> 0 < c < matching[c] < |matching|
      ensures fresh(next) && fresh(prev) && Shape()
      ensures this.matching == matching
      ensures forall p :: 0 <= p < n ==> next[p] == prev[p] == NIL
    {
      next := new int[n](_ => NIL);
      prev := new int[n](_ => NIL);
      this.matching := matching;
    }

    method InsertBefore(node: int, mark: int)
      requires Shape() && 0 <= node < next.Length && NIL <= mark < next.Length
      requires mark != NIL ==> NIL <= prev[mark] < next.Length
      modifies next, prev
      ensures (next[..], prev[..]) == Inserted(old(next[..]), old(prev[..]), node, mark)
    {
      if mark != NIL {
        var beforeMark := prev[mark];
        prev[mark] := node;
        next[node] := mark;
        if beforeMark != NIL {
          prev[node] := beforeMark;
          next[beforeMark] := node;
        }
      }
    }

    method Lift(c: int, ghost gone: set<int>)
      requires Shape() && 0 < c < next.Length && matching[c] != NIL
      requires Linked(next[..], prev[..], gone) && 0 !in gone && c !in gone && matching[c] !in gone
      modifies next, prev
      ensures Linked(next[..], prev[..], gone + {c, matching[c]})
      ensures Saved(next[..], prev[..], gone, c, matching[c])
      ensures forall y :: 0 <= y < next.Length && y in gone ==> next[y] == old(next[y]) && prev[y] == old(prev[y])
    {
      hide IsPrev;
      var r := matching[c];
      UnlinkKeeps(next[..], prev[..], gone, c);
      assert next[c] != NIL by {
        assert IsNext(gone, c, next.Length, next[..][c]);
      }
      next[prev[c]] := next[c];
      prev[next[c]] := prev[c];
      assert (next[..], prev[..]) == Unlinked(old(next[..]), old(prev[..]), c);
      UnlinkKeeps(next[..], prev[..], gone + {c}, r);
      ghost var n1, p1 := next[..], prev[..];
      next[prev[r]] := next[r];
      if next[r] != NIL {
        prev[next[r]] := prev[r];
      }
      assert (next[..], prev[..]) == Unlinked(n1, p1, r);
      assert gone + {c} + {r} == gone + {c, r};
    }

    method Unlift(c: int, ghost gone: set<int>)
      requires Shape() && 0 < c < next.Length && matching[c] != NIL
      requires 0 !in gone && c !in gone && matching[c] !in gone
      requires Linked(next[..], prev[..], gone + {c, matching[c]})
      requires Saved(next[..], prev[..], gone, c, matching[c])
      modifies next, prev
      ensures Linked(next[..], prev[..], gone)
      ensures forall y :: 0 <= y < next.Length && y in gone ==> next[y] == old(next[y]) && prev[y] == old(prev[y])
    {
      var r := matching[c];
      UnliftKeeps(next[..], prev[..], gone, c, r);
      hide Linked, Saved, Relinked;
      ghost var n0, p0 := next[..], prev[..];
      next[prev[r]] := r;
      assert next[..] == n0[p0[r] := r];
      if next[r] != NIL {
        prev[next[r]] := r;
      }
      ghost var n1, p1 := next[..], prev[..];
      assert p1 == if n0[r] == NIL then p0 else p0[n0[r] := r];
      RelinkedIs(n0, p0, r);
      next[prev[c]] := c;
      assert next[..] == n1[p1[c] := c];
      prev[next[c]] := c;
      assert prev[..] == p1[n1[c] := c];
      RelinkedIs(n1, p1, c);
    }
  }
}
