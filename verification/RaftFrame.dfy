/** How a step of one peer leaves the facts about everything else in place. */
module RaftFrame {
  import opened RaftLog
  import opened RaftHandlers
  import opened RaftProtocol
  import opened RaftInvariant

  // The history only gains elections, votes, acknowledgements and entries at the end of leader logs.
  ghost predicate Grows(h: History, h': History) {
    && (forall t :: t in h.elections ==> t in h'.elections && h'.elections[t] == h.elections[t])
    && (forall t :: t in h.leaderLog ==> t in h'.leaderLog && h.leaderLog[t] <= h'.leaderLog[t])
    && (forall t, v :: (t, v) in h.votes ==> (t, v) in h'.votes && h'.votes[(t, v)] == h.votes[(t, v)])
    && (forall t, v :: (t, v) in h.acks ==> (t, v) in h'.acks && h.acks[(t, v)] <= h'.acks[(t, v)])
    && (h.late ==> h'.late)
  }

  lemma GrowsTransitive(a: History, b: History, c: History)
    requires Grows(a, b) && Grows(b, c)
    ensures Grows(a, c)
  {
  }

  lemma GrowLogOk(h: History, h': History, log: seq<Entry>)
    requires Grows(h, h') && LogOk(h, log)
    ensures LogOk(h', log)
  {
    forall i | 1 <= i < |log|
      ensures log[i].term in h'.leaderLog && Agree(log, h'.leaderLog[log[i].term], i)
    {
      assert Agree(log, h.leaderLog[log[i].term], i);
    }
  }

  lemma GrowChosen(h: History, h': History, n: nat, t: int, i: int)
    requires Grows(h, h') && Chosen(h, n, t, i)
    ensures Chosen(h', n, t, i)
  {
    SubsetSize(Ackers(h, n, t, i), Ackers(h', n, t, i));
  }

  lemma GrowCertified(h: History, h': History, n: nat, log: seq<Entry>, c: int)
    requires Grows(h, h') && Certified(h, n, log, c)
    ensures Certified(h', n, log, c)
  {
    if c != 0 {
      var i :| 0 < c <= i < |log| && Chosen(h, n, log[i].term, i) && Agree(log, h.leaderLog[log[i].term], i);
      GrowChosen(h, h', n, log[i].term, i);
      assert Agree(log, h'.leaderLog[log[i].term], i);
    }
  }

  // A log that holds all of a certified one is certified as well.
  lemma CertifiedLonger(h: History, n: nat, a: seq<Entry>, b: seq<Entry>, c: int)
    requires Certified(h, n, a, c) && a <= b
    ensures Certified(h, n, b, c)
  {
    if c != 0 {
      var i :| 0 < c <= i < |a| && Chosen(h, n, a[i].term, i) && Agree(a, h.leaderLog[a[i].term], i);
      assert b[i] == a[i] && Agree(b, h.leaderLog[b[i].term], i);
    }
  }

  lemma GrowKept(h: History, h': History, log: seq<Entry>, t: int, i: int, bound: int, bound': int)
    requires Grows(h, h') && t in h.leaderLog && i < |h.leaderLog[t]|
    requires Kept(h, log, t, i, bound) && bound <= bound'
    ensures Kept(h', log, t, i, bound')
  {
    if Agree(log, h.leaderLog[t], i) {
      assert Agree(log, h'.leaderLog[t], i);
    } else {
      var u :| u in h.elections && t < u < bound && !Agree(h.elections[u].log, h.leaderLog[t], i);
      assert u in h'.elections && !Agree(h'.elections[u].log, h'.leaderLog[t], i);
    }
  }

  lemma GrowElection(h: History, h': History, n: nat, t: int)
    requires Grows(h, h') && t in h.elections && t in h.leaderLog && ElectionOk(h, n, t)
    requires h'.leaderLog[t] == h.leaderLog[t]
    ensures ElectionOk(h', n, t)
  {
    GrowLogOk(h, h', h.elections[t].log);
    GrowLogOk(h, h', h.leaderLog[t]);
  }

  lemma GrowCarries(h: History, h': History, n: nat, a: AppendArgs, t: int)
    requires Grows(h, h') && Carries(h, n, a, t)
    ensures Carries(h', n, a, t)
  {
    var l, l', k := h.leaderLog[t], h'.leaderLog[t], a.prevLogIndex + |a.entries|;
    assert l[..k + 1] == l'[..k + 1];
    GrowCertified(h, h', n, l[..k + 1], a.leaderCommit);
  }

  /** Peer `i` moves and the others stand still; whatever is new in the history belongs to `i`. */
  ghost predicate Moves(st: State, st': State, i: nat) {
    && i < |st.servers| == |st'.servers|
    && (forall j :: 0 <= j < |st.servers| && j != i ==> st'.servers[j] == st.servers[j])
    && Grows(st.h, st'.h)
    && var s, s' := st.servers[i], st'.servers[i];
    && s.currentTerm <= s'.currentTerm
    && (s'.role == Candidate ==> s.currentTerm < s'.currentTerm || (s.role == Candidate && s'.log == s.log))
    && (forall t, v :: (t, v) in st'.h.votes ==> (t, v) in st.h.votes || (v == i && t == s'.currentTerm))
    && (forall t, v :: (t, v) in st'.h.acks ==>
          || ((t, v) in st.h.acks && st'.h.acks[(t, v)] == st.h.acks[(t, v)])
          || (v == i && t == s'.currentTerm))
    && (forall t :: t in st'.h.elections ==>
          t in st.h.elections || (st'.h.elections[t].leader == i && t == s'.currentTerm))
    && (forall t :: t in st'.h.leaderLog ==>
          || (t in st.h.leaderLog && st'.h.leaderLog[t] == st.h.leaderLog[t])
          || (t in st'.h.elections && st'.h.elections[t].leader == i && t == s'.currentTerm))
  }

  lemma QuietServer(st: State, st': State, i: nat, j: nat)
    requires Moves(st, st', i) && j < |st.servers| && j != i
    requires ServerOk(st.h, |st.servers|, j, st.servers[j])
    ensures ServerOk(st'.h, |st.servers|, j, st.servers[j])
  {
    var s := st.servers[j];
    GrowLogOk(st.h, st'.h, s.log);
    GrowCertified(st.h, st'.h, |st.servers|, s.log, s.commitIndex);
  }

  // The moving peer still holds all it acknowledged, unless a leader in between dropped it.
  ghost predicate KeepsOwn(h: History, i: nat, s: Server) {
    forall t, k :: InTerm(h, t, k) && Acked(h, t, i, k) ==> Kept(h, s.log, t, k, Reach(s) + 1)
  }

  lemma QuietPeers(st: State, st': State, i: nat)
    requires Moves(st, st', i) && HistoryOk(st.h, |st.servers|) && PeersKept(st.h, st.servers)
    requires KeepsOwn(st'.h, i, st'.servers[i])
    ensures PeersKept(st'.h, st'.servers)
  {
    forall t, v: nat, k | InTerm(st'.h, t, k) && Acked(st'.h, t, v, k) && v < |st'.servers|
      ensures Kept(st'.h, st'.servers[v].log, t, k, Reach(st'.servers[v]) + 1)
    {
      if v != i {
        assert Acked(st.h, t, v, k) && InTerm(st.h, t, k);
        var b := Reach(st.servers[v]) + 1;
        GrowKept(st.h, st'.h, st.servers[v].log, t, k, b, b);
      }
    }
  }

  // A new vote is cast with a log that holds all the voter acknowledged in earlier terms.
  ghost predicate VotesWell(h: History, h': History, i: nat) {
    forall u, t, k :: (u, i) in h'.votes && (u, i) !in h.votes && !Ahead(h'.votes[(u, i)].log, u) ==>
      InTerm(h', t, k) && Acked(h', t, i, k) && t < u ==> KeptByVoter(h', t, k, i, u)
  }

  lemma QuietVoters(st: State, st': State, i: nat)
    requires Moves(st, st', i) && HistoryOk(st.h, |st.servers|) && VotersKept(st.h)
    requires VotesWell(st.h, st'.h, i)
    requires forall u :: (u, i) in st'.h.votes ==> u <= st'.servers[i].currentTerm
    ensures VotersKept(st'.h)
  {
    forall t, v: nat, k, u |
      InTerm(st'.h, t, k) && Acked(st'.h, t, v, k) && (u, v) in st'.h.votes && t < u && !Ahead(st'.h.votes[(u, v)].log, u)
      ensures KeptByVoter(st'.h, t, k, v, u)
    {
      if (u, v) in st.h.votes {
        assert Acked(st.h, t, v, k) && InTerm(st.h, t, k);
        assert KeptByVoter(st.h, t, k, v, u);
        if Kept(st.h, st.h.votes[(u, v)].log, t, k, u) {
          GrowKept(st.h, st'.h, st.h.votes[(u, v)].log, t, k, u, u);
        }
      }
    }
  }

  lemma QuietLate(st: State, st': State, i: nat, to: nat, a: AppendArgs)
    requires Moves(st, st', i) && RequestOk(st.h, st.servers, to, a)
    ensures RequestOk(st'.h, st'.servers, to, a)
  {
    hide Carries;
    if AppendArgsOk(st.h, |st.servers|, a) {
      GrowCarries(st.h, st'.h, |st.servers|, a, a.term);
    } else {
      var t :| LateArgs(st.h, st.servers, to, a, t);
      GrowCarries(st.h, st'.h, |st.servers|, a, t);
      CarriedTerm(st.h, |st.servers|, a, t);
      assert LateArgs(st'.h, st'.servers, to, a, t);
    }
  }

  lemma CarriedTerm(h: History, n: nat, a: AppendArgs, t: int)
    requires Carries(h, n, a, t)
    ensures t in h.elections && t in h.leaderLog
  {
  }

  lemma QuietMessage(st: State, st': State, i: nat, m: Message)
    requires Moves(st, st', i) && MessageOk(st.h, st.servers, m)
    ensures MessageOk(st'.h, st'.servers, m)
  {
    hide Carries, RequestOk;
    if m.AppendRequest? {
      QuietLate(st, st', i, m.to, m.args);
    } else if m.AppendAnswer? && AppendArgsOk(st.h, |st.servers|, m.args) {
      GrowCarries(st.h, st'.h, |st.servers|, m.args, m.args.term);
    }
  }

  lemma QuietNetwork(st: State, st': State, i: nat)
    requires Moves(st, st', i) && NetworkOk(st.h, st.servers, st.network)
    ensures NetworkOk(st'.h, st'.servers, st.network)
  {
    forall m | m in st.network ensures MessageOk(st'.h, st'.servers, m) {
      QuietMessage(st, st', i, m);
    }
  }

  // What the moving peer, when it leads, knows of the others.
  ghost predicate OwnNext(h: History, servers: seq<Server>, i: nat) {
    i < |servers| && (servers[i].role == Leader ==> forall j: nat :: j < |servers| && j != i ==> NextAt(h, servers, i, j))
  }

  lemma QuietNext(st: State, st': State, i: nat)
    requires Moves(st, st', i) && NextOk(st.h, st.servers) && OwnNext(st'.h, st'.servers, i)
    ensures NextOk(st'.h, st'.servers)
  {
    forall k: nat, j: nat | k < |st'.servers| && j < |st'.servers| && k != j && st'.servers[k].role == Leader
      ensures NextAt(st'.h, st'.servers, k, j)
    {
      if k != i {
        assert NextAt(st.h, st.servers, k, j);
      }
    }
  }

  // In a small cluster two peers are never both left out by a majority.
  lemma MissesOne(n: nat, q: set<nat>, x: nat, y: nat)
    requires n <= 4 && IsQuorum(n, q) && x != y && x < n && y < n
    ensures x in q || y in q
  {
    if x !in q && y !in q {
      assert |q + {x, y}| == |q| + 2;
      BelowSize(n, q + {x, y});
    }
  }

  // When peer `j` is ahead of its term, all others have reached the term it is ahead of.
  lemma OthersReached(h: History, n: nat, j: nat, s: Server, i: nat, o: Server)
    requires HistoryOk(h, n) && n <= 4 && i < n && j < n && i != j && Ahead(s.log, s.currentTerm)
    requires ServerOk(h, n, j, s) && ServerOk(h, n, i, o) && LastTerm(s.log) in h.elections
    ensures LastTerm(s.log) <= o.currentTerm
  {
    hide LogOk, Certified;
    var t := LastTerm(s.log);
    assert ElectionOk(h, n, t);
    MissesOne(n, h.elections[t].quorum, i, j);
  }

  lemma QuietLag(st: State, st': State, i: nat, j: nat)
    requires Moves(st, st', i) && HistoryOk(st.h, |st.servers|) && j < |st.servers| && j != i
    requires ServerOk(st.h, |st.servers|, j, st.servers[j]) && ServerOk(st.h, |st.servers|, i, st.servers[i])
    requires (st.h.late ==> |st.servers| <= 4) && LagOk(st.h, j, st.servers[j])
    ensures LagOk(st'.h, j, st.servers[j])
  {
    hide LogOk, Certified, HistoryOk;
    var s := st.servers[j];
    if Ahead(s.log, s.currentTerm) {
      var t := LastTerm(s.log);
      OthersReached(st.h, |st.servers|, j, s, i, st.servers[i]);
      forall u | u in st'.h.leaderLog && s.currentTerm <= u < t ensures st'.h.leaderLog[u] <= st'.h.elections[t].log {
        assert u in st.h.leaderLog && st'.h.leaderLog[u] == st.h.leaderLog[u];
      }
      assert forall v: nat :: (s.currentTerm, v) in st'.h.votes ==> (s.currentTerm, v) in st.h.votes;
    }
  }

  // ---------------------------------------------------------------- sources

  lemma QuietSource(st: State, st': State, i: nat, t: int, w: int, bound: int, bound': int)
    requires Moves(st, st', i) && ServerOk(st.h, |st.servers|, i, st.servers[i])
    requires Source(st.h, t, w, bound) && bound <= bound'
    ensures Source(st'.h, t, w, bound')
  {
    hide LogOk, Certified;
    if !(t in st.h.elections && |st.h.elections[t].log| > 0 && w <= LastTerm(st.h.elections[t].log)) {
      var u :| u in st.h.elections && t < u <= bound && !Lacks(st.h, t, st.h.elections[u].leader, w);
      assert !Lacks(st'.h, t, st'.h.elections[u].leader, w);
    }
  }

  // Every leader elected by the step has accounted for its entries.
  ghost predicate NewSources(h: History, h': History) {
    forall u :: u in h'.elections && u !in h.elections ==> StartSources(h', u)
  }

  lemma QuietStart(st: State, st': State, i: nat, u: int)
    requires Moves(st, st', i) && ServerOk(st.h, |st.servers|, i, st.servers[i])
    requires u in st.h.elections && StartSources(st.h, u)
    ensures StartSources(st'.h, u)
  {
    hide Source, LogOk, Certified;
    var log := st.h.elections[u].log;
    forall t, k | 0 <= k < |log| && log[k].term < t < u ensures Source(st'.h, t, log[k].term, u) {
      QuietSource(st, st', i, t, log[k].term, u, u);
    }
  }

  lemma QuietPeerSources(st: State, st': State, i: nat, j: nat)
    requires Moves(st, st', i) && j < |st.servers| && j != i
    requires ServerOk(st.h, |st.servers|, i, st.servers[i]) && PeerSources(st.h, j, st.servers[j])
    ensures PeerSources(st'.h, j, st.servers[j])
  {
    hide Source, LogOk, Certified;
    var s := st.servers[j];
    forall t, k | 0 <= k < |s.log| && s.log[k].term < t && Lacks(st'.h, t, j, s.log[k].term)
      ensures Source(st'.h, t, s.log[k].term, s.currentTerm)
    {
      assert Lacks(st.h, t, j, s.log[k].term);
      QuietSource(st, st', i, t, s.log[k].term, s.currentTerm, s.currentTerm);
    }
  }

  lemma QuietSources(st: State, st': State, i: nat)
    requires Moves(st, st', i) && ServerOk(st.h, |st.servers|, i, st.servers[i]) && SourcesOk(st.h, st.servers)
    requires PeerSources(st'.h, i, st'.servers[i]) && NewSources(st.h, st'.h)
    ensures SourcesOk(st'.h, st'.servers)
  {
    hide PeerSources, StartSources, LogOk, Certified;
    forall j: nat | j < |st.servers| && j != i ensures PeerSources(st'.h, j, st'.servers[j]) {
      QuietPeerSources(st, st', i, j);
    }
    forall u | u in st'.h.elections && u in st.h.elections ensures StartSources(st'.h, u) {
      QuietStart(st, st', i, u);
    }
  }

  // A vote is cast with the log of the moment, so a log that stays needs no new source.
  lemma SameLogSources(st: State, st': State, i: nat)
    requires Moves(st, st', i) && HistoryOk(st.h, |st.servers|) && ServerOk(st.h, |st.servers|, i, st.servers[i])
    requires PeerSources(st.h, i, st.servers[i]) && st'.servers[i].log == st.servers[i].log
    requires forall t :: (t, i) in st'.h.votes && (t, i) !in st.h.votes ==> st'.h.votes[(t, i)].log == st.servers[i].log
    ensures PeerSources(st'.h, i, st'.servers[i])
  {
    hide Source, LogOk, Certified, HistoryOk;
    var s, s' := st.servers[i], st'.servers[i];
    forall t, k | 0 <= k < |s.log| && s.log[k].term < t && Lacks(st'.h, t, i, s.log[k].term)
      ensures Source(st'.h, t, s.log[k].term, s'.currentTerm)
    {
      LastTermLargest(st.h, |st.servers|, s.log, k);
      assert Lacks(st.h, t, i, s.log[k].term);
      QuietSource(st, st', i, t, s.log[k].term, s.currentTerm, s'.currentTerm);
    }
  }

  // What remains to be shown of a step once the others are known to stand still.
  ghost predicate MovesWell(st: State, st': State, i: nat) {
    && Moves(st, st', i)
    && HistoryOk(st'.h, |st.servers|)
    && VotesWell(st.h, st'.h, i)
    && ServerOk(st'.h, |st.servers|, i, st'.servers[i])
    && KeepsOwn(st'.h, i, st'.servers[i])
    && CandidatesOk(st'.h, st'.servers)
    && CountsOk(st') && CallsOk(st')
    && OwnNext(st'.h, st'.servers, i)
    && (st'.h.late ==> |st.servers| <= 4) && LagOk(st'.h, i, st'.servers[i])
    && PeerSources(st'.h, i, st'.servers[i]) && NewSources(st.h, st'.h)
    && st.network <= st'.network
    && forall m :: m in st'.network && m !in st.network ==> MessageOk(st'.h, st'.servers, m)
  }

  lemma KeepsInv(st: State, st': State, i: nat)
    requires Inv(st) && MovesWell(st, st', i)
    ensures Inv(st')
  {
    hide LogOk, Certified, HistoryOk, VotersKept, PeersKept, CandidatesOk, CountsOk, CallsOk, NextAt, LagOk,
      PeerSources, StartSources, MessageOk, KeepsOwn, VotesWell;
    forall j: nat | j < |st.servers| && j != i
      ensures ServerOk(st'.h, |st.servers|, j, st'.servers[j])
      ensures LagOk(st'.h, j, st'.servers[j])
    {
      QuietServer(st, st', i, j);
      QuietLag(st, st', i, j);
    }
    QuietPeers(st, st', i);
    QuietVoters(st, st', i);
    QuietNetwork(st, st', i);
    QuietNext(st, st', i);
    QuietSources(st, st', i);
  }

  // A peer whose log stays and who acknowledges nothing but what it holds.
  lemma OwnKept(st: State, st': State, i: nat)
    requires Moves(st, st', i) && HistoryOk(st.h, |st.servers|) && PeersKept(st.h, st.servers)
    requires st'.servers[i].log == st.servers[i].log
    requires forall t, k :: InTerm(st'.h, t, k) && Acked(st'.h, t, i, k) ==>
      Acked(st.h, t, i, k) || Agree(st'.servers[i].log, st'.h.leaderLog[t], k)
    ensures KeepsOwn(st'.h, i, st'.servers[i])
  {
    var s, s' := st.servers[i], st'.servers[i];
    forall t, k | InTerm(st'.h, t, k) && Acked(st'.h, t, i, k)
      ensures Kept(st'.h, s'.log, t, k, Reach(s') + 1)
    {
      if Acked(st.h, t, i, k) {
        assert InTerm(st.h, t, k);
        GrowKept(st.h, st'.h, s.log, t, k, Reach(s) + 1, Reach(s') + 1);
      }
    }
  }
}
