/** The replicated key/value store: servers on top of Raft peers.  In every calm run all servers apply prefixes of one
    and the same log of requests, so they go through the same stores. */
module KvReplicas {
  import opened Basics
  import opened RaftLog
  import opened RaftHandlers
  import opened RaftProtocol
  import opened RaftInvariant
  import opened RaftSafety
  import opened RaftHanded
  import R = Requests
  import K = KvServer
  import D = Deliveries

  // Peer `i` has at least `k` entries, not counting the marker.
  ghost predicate Has(st: State, i: nat, k: nat) {
    i < |st.servers| && k < |st.servers[i].log|
  }

  // The requests in the first `k` entries of a peer; `read` decodes a command.
  ghost function Requests(st: State, i: nat, k: nat, read: Command -> R.Request): (r: seq<R.Request>)
    requires Has(st, i, k)
    ensures |r| == k
  {
    seq(k, x requires 0 <= x < k => read(st.servers[i].log[x + 1].command))
  }

  // All of `n` peers apply at most what they have committed, and have committed at most what they hold.
  ghost predicate Shaped(n: nat, states: seq<State>) {
    forall a :: 0 <= a < |states| ==> |states[a].servers| == n && forall i :: 0 <= i < n ==> Bounded(states[a].servers[i])
  }

  ghost predicate Bounded(s: Server) {
    0 <= s.lastApplied <= s.commitIndex < |s.log|
  }

  lemma RunShaped(n: nat, states: seq<State>, events: seq<Event>)
    requires CalmRun(n, states, events)
    ensures Shaped(n, states)
  {
    hide Step, Inv;
    forall a | 0 <= a < |states| ensures |states[a].servers| == n && forall i :: 0 <= i < n ==> Bounded(states[a].servers[i]) {
      RunInv(n, states, events, a);
      forall i | 0 <= i < n ensures Bounded(states[a].servers[i]) {
        PeerBounded(states[a], n, i);
      }
    }
  }

  lemma PeerBounded(st: State, n: nat, i: nat)
    requires Inv(st) && |st.servers| == n && i < n
    ensures Bounded(st.servers[i])
  {
    hide LogOk, LeaderOk, Certified, HistoryOk, VotersKept, PeersKept, CandidatesOk, CountsOk, CallsOk, NetworkOk,
      LagsOk, SourcesOk, NextOk;
    assert ServerOk(st.h, n, i, st.servers[i]);
  }

  // What two peers have committed agrees as far as both reach.
  lemma SameRequests(n: nat, states: seq<State>, events: seq<Event>, a: nat, b: nat, i: nat, j: nat, k: nat,
                     read: Command -> R.Request)
    requires CalmRun(n, states, events) && Shaped(n, states) && a < |states| && b < |states| && i < n && j < n
    requires k <= states[a].servers[i].commitIndex && k <= states[b].servers[j].commitIndex
    ensures Requests(states[a], i, k, read) == Requests(states[b], j, k, read)
  {
    hide Step;
    forall x | 0 < x <= k ensures states[a].servers[i].log[x] == states[b].servers[j].log[x] {
      if a <= b {
        StateMachineSafety(n, states, events, a, b, i, j, x);
      } else {
        StateMachineSafety(n, states, events, b, a, j, i, x);
      }
    }
  }

  lemma RequestsPrefix(st: State, i: nat, k: nat, m: nat, read: Command -> R.Request)
    requires Has(st, i, m) && k <= m
    ensures Requests(st, i, k, read) == Requests(st, i, m, read)[..k]
  {
  }

  // The requests that peer `i` has handed to its server by event `k`, since it last started.
  ghost function Received(states: seq<State>, events: seq<Event>, i: nat, k: nat, read: Command -> R.Request): (r: seq<R.Request>)
    requires |states| == |events| + 1 && k <= |events|
    ensures |r| == |Handed(states, events, i, k)|
  {
    var es := Handed(states, events, i, k);
    seq(|es|, x requires 0 <= x < |es| => read(es[x].command))
  }

  ghost function StoreOf(states: seq<State>, events: seq<Event>, i: nat, k: nat, read: Command -> R.Request): K.Store
    requires |states| == |events| + 1 && k <= |events|
  {
    K.ApplyLog(K.EMPTY, Received(states, events, i, k, read))
  }

  lemma ReceivedPrefix(n: nat, states: seq<State>, events: seq<Event>, i: nat, k: nat, read: Command -> R.Request)
    requires CalmRun(n, states, events) && Shaped(n, states) && k <= |events| && i < n
    ensures Received(states, events, i, k, read) == Requests(states[k], i, states[k].servers[i].lastApplied, read)
  {
    hide Handed;
    HandedExactly(n, states, events, i, k);
  }

  /** Any two servers that have executed what their peers handed them since they last started, at any two times: the one
      that got less holds the store that the other one had at that point, and catches up with exactly the other's
      requests. */
  lemma ReplicasAgree(n: nat, states: seq<State>, events: seq<Event>, a: nat, b: nat, i: nat, j: nat, read: Command -> R.Request)
    requires CalmRun(n, states, events) && a <= |events| && b <= |events| && i < n && j < n
    requires |Handed(states, events, i, a)| <= |Handed(states, events, j, b)|
    ensures
      var k := |Handed(states, events, i, a)|;
      && Received(states, events, i, a, read) == Received(states, events, j, b, read)[..k]
      && StoreOf(states, events, j, b, read) ==
           K.ApplyLog(StoreOf(states, events, i, a, read), Received(states, events, j, b, read)[k..])
  {
    hide Handed;
    RunShaped(n, states, events);
    ReceivedPrefix(n, states, events, i, a, read);
    ReceivedPrefix(n, states, events, j, b, read);
    var k, m := states[a].servers[i].lastApplied, states[b].servers[j].lastApplied;
    assert k == |Handed(states, events, i, a)| && m == |Handed(states, events, j, b)|;
    SameRequests(n, states, events, a, b, i, j, k, read);
    RequestsPrefix(states[b], j, k, m, read);
    var ops := Received(states, events, j, b, read);
    assert ops == ops[..k] + ops[k..];
    K.ApplyMore(K.EMPTY, ops[..k], ops[k..]);
  }

  // ---------------------------------------------------------------- one log

  lemma {:induction false} FarthestPeer(states: seq<State>, n: nat, a: nat, c: nat) returns (j: nat)
    requires Shaped(n, states) && a < |states| && 0 < c <= n
    ensures j < c && forall i :: 0 <= i < c ==> states[a].servers[i].commitIndex <= states[a].servers[j].commitIndex
  {
    j := c - 1;
    if c > 1 {
      var i := FarthestPeer(states, n, a, c - 1);
      if states[a].servers[i].commitIndex > states[a].servers[j].commitIndex {
        j := i;
      }
    }
  }

  lemma {:induction false} Farthest(states: seq<State>, n: nat, c: nat) returns (b: nat, j: nat)
    requires Shaped(n, states) && 0 < c <= |states| && n > 0
    ensures b < c && j < n
    ensures forall a, i :: 0 <= a < c && 0 <= i < n ==> states[a].servers[i].commitIndex <= states[b].servers[j].commitIndex
  {
    b := c - 1;
    j := FarthestPeer(states, n, b, n);
    if c > 1 {
      var b', j' := Farthest(states, n, c - 1);
      if states[b'].servers[j'].commitIndex > states[b].servers[j].commitIndex {
        b, j := b', j';
      }
    }
  }

  // Everything that any peer has committed at any time is in the log.
  ghost predicate IsLog(n: nat, states: seq<State>, read: Command -> R.Request, log: seq<R.Request>)
    requires Shaped(n, states)
  {
    forall a, i :: 0 <= a < |states| && 0 <= i < n ==> InLogOf(states[a], i, read, log)
  }

  ghost predicate InLogOf(st: State, i: nat, read: Command -> R.Request, log: seq<R.Request>)
    requires i < |st.servers| && 0 <= st.servers[i].commitIndex < |st.servers[i].log|
  {
    Requests(st, i, st.servers[i].commitIndex, read) <= log
  }

  /** Behind every calm run is one log of requests.  Whatever messages a server gets that carry committed entries or
      snapshots of it, and in whatever order that is in turn, the server is at the newest store it has heard of. */
  lemma OneLog(n: nat, states: seq<State>, events: seq<Event>, read: Command -> R.Request) returns (log: seq<R.Request>)
    requires CalmRun(n, states, events)
    ensures Shaped(n, states) && IsLog(n, states, read, log)
    ensures forall from: nat, ds ::
      D.Newest(from, ds) <= |log| && D.Within(ds, |log|) && D.InTurn(false, from, ds) ==>
        D.UpToDate(K.Machine(), false, log, from, ds)
  {
    hide Step, D.UpToDate, D.InTurn, D.Newest;
    RunShaped(n, states, events);
    log := [];
    if n > 0 {
      var b, j := Farthest(states, n, |states|);
      var m := states[b].servers[j].commitIndex;
      log := Requests(states[b], j, m, read);
      forall a, i | 0 <= a < |states| && 0 <= i < n ensures InLogOf(states[a], i, read, log) {
        var k := states[a].servers[i].commitIndex;
        SameRequests(n, states, events, a, b, i, j, k, read);
        RequestsPrefix(states[b], j, k, m, read);
      }
    }
    forall from: nat, ds | D.Newest(from, ds) <= |log| && D.Within(ds, |log|) && D.InTurn(false, from, ds)
      ensures D.UpToDate(K.Machine(), false, log, from, ds)
    {
      K.RepeatsNothing(log);
      D.UpToDateIff(K.Machine(), false, log, from, ds);
    }
  }

  // The deliveries of the first `k` commands, one after the other.
  ghost function Commands(k: nat): (ds: seq<D.Delivery>)
    ensures |ds| == k
  {
    if k == 0 then [] else Commands(k - 1) + [D.Command(k)]
  }

  lemma {:induction false} CommandsSent(k: nat)
    ensures D.Sent(0, Commands(k)) && D.Newest(0, Commands(k)) == k
    ensures forall x :: 0 <= x < k ==> Commands(k)[x] == D.Command(x + 1)
  {
    if k > 0 {
      CommandsSent(k - 1);
      assert D.Before(Commands(k)) == Commands(k - 1);
    }
  }

  /** What any peer hands over, at any time, are messages that carry the commands of the log from the first one on, without
      a gap or a repetition: they are in turn, and the server is then at the store after that many commands. */
  lemma HandedOver(n: nat, states: seq<State>, events: seq<Event>, k: nat, i: nat, read: Command -> R.Request, log: seq<R.Request>)
    requires CalmRun(n, states, events) && Shaped(n, states) && IsLog(n, states, read, log) && k <= |events| && i < n
    ensures
      var es := Handed(states, events, i, k);
      && |es| <= |log| && D.InTurn(false, 0, Commands(|es|))
      && (forall x :: 0 <= x < |es| ==> K.Carries(log, K.CommandMsg(x + 1, read(es[x].command)), Commands(|es|)[x]) && es[x].index == x + 1)
      && StoreOf(states, events, i, k, read) == K.ApplyLog(K.EMPTY, log[..|es|])
  {
    hide Handed, Commands;
    var es, s := Handed(states, events, i, k), states[k].servers[i];
    HandedExactly(n, states, events, i, k);
    ReceivedPrefix(n, states, events, i, k, read);
    CommandsSent(|es|);
    D.SentInTurn(false, 0, Commands(|es|));
    assert InLogOf(states[k], i, read, log);
    RequestsPrefix(states[k], i, s.lastApplied, s.commitIndex, read);
    var all := Requests(states[k], i, s.commitIndex, read);
    assert all <= log && all[..|es|] == log[..|es|];
    forall x | 0 <= x < |es| ensures log[x] == read(es[x].command) {
      assert Received(states, events, i, k, read)[x] == log[..|es|][x];
    }
  }
}
