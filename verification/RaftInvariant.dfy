/** What every timely step of the protocol keeps, and every step in a cluster of at most four peers.

    The core is a pair of facts about the history.  (1) A log prefix that ends in an entry of term `t`
    is a prefix of the log of the leader of `t`.  (2) A peer that acknowledged a prefix of the log of leader `t`
    still holds it, and held it whenever it voted later, unless some leader elected in between
    started without that prefix.  Leader completeness follows from the two by induction on terms.
 */
module RaftInvariant {
  import opened RaftLog
  import opened RaftHandlers
  import opened RaftProtocol

  // The two logs hold the same entries up to index `k`.
  ghost predicate Agree(a: seq<Entry>, b: seq<Entry>, k: int) {
    0 <= k < |a| && k < |b| && forall j :: 0 <= j <= k ==> a[j] == b[j]
  }

  ghost predicate LogOk(h: History, log: seq<Entry>) {
    && |log| > 0 && log[0] == MARKER
    && (forall i :: 0 <= i < |log| ==> log[i].index == i)
    && (forall i :: 1 <= i < |log| ==>
          && log[i].term >= 1
          && log[i].term in h.leaderLog
          && Agree(log, h.leaderLog[log[i].term], i))
  }

  // The log has entries of a later term than `t`.
  ghost predicate Ahead(log: seq<Entry>, t: int) {
    |log| > 0 && LastTerm(log) > t
  }

  // The latest term that the peer is in or has entries of.
  ghost function Reach(s: Server): int {
    if Ahead(s.log, s.currentTerm) then LastTerm(s.log) else s.currentTerm
  }

  ghost predicate TermsBelow(log: seq<Entry>, t: int) {
    forall i :: 0 <= i < |log| ==> log[i].term < t
  }

  ghost predicate IsQuorum(n: nat, q: set<nat>) {
    2 * |q| > n && forall j :: j in q ==> j < n
  }

  ghost predicate UpToDateLog(a: seq<Entry>, b: seq<Entry>) {
    |a| > 0 && |b| > 0 && UpToDate(LastTerm(a), LastIndex(a), b)
  }

  ghost predicate VoteOf(h: History, t: int, voter: nat, candidate: int) {
    (t, voter) in h.votes && h.votes[(t, voter)].candidate == candidate
  }

  // The leader of `t` won with `E` and extended it by entries of its own term only.
  ghost predicate ElectionOk(h: History, n: nat, t: int)
    requires t in h.elections && t in h.leaderLog
  {
    var e := h.elections[t];
    var l := h.leaderLog[t];
    && t >= 1 && e.leader < n && e.log <= l
    && LogOk(h, e.log) && LogOk(h, l)
    && TermsBelow(e.log, t)
    && (forall i :: |e.log| <= i < |l| ==> l[i].term == t)
    && IsQuorum(n, e.quorum)
    && Acked(h, t, e.leader, |l| - 1)
    && forall q :: q in e.quorum ==> VoteOf(h, t, q, e.leader) && UpToDateLog(e.log, h.votes[(t, q)].log)
  }

  ghost predicate HistoryOk(h: History, n: nat) {
    && h.elections.Keys == h.leaderLog.Keys
    && (forall t :: t in h.elections ==> ElectionOk(h, n, t))
    && (forall t, v :: (t, v) in h.votes ==>
          v < n && LogOk(h, h.votes[(t, v)].log))
    && (forall t, v :: (t, v) in h.acks ==> v < n && t in h.elections && 0 <= h.acks[(t, v)] < |h.leaderLog[t]|)
  }

  // The leader of `t` had an entry at `i`.
  ghost predicate InTerm(h: History, t: int, i: int) {
    t in h.elections && t in h.leaderLog && 0 <= i < |h.leaderLog[t]|
  }

  // Index `i` holds an entry that the leader of `t` created itself.
  ghost predicate OwnEntry(h: History, t: int, i: int) {
    t in h.elections && t in h.leaderLog && |h.elections[t].log| <= i < |h.leaderLog[t]|
  }

  ghost predicate Acked(h: History, t: int, v: nat, i: int) {
    (t, v) in h.acks && i <= h.acks[(t, v)]
  }

  // Some leader of a term strictly between `t` and `bound` started without the prefix up to `i` of leader `t`.
  ghost predicate Dropped(h: History, t: int, i: int, bound: int)
    requires t in h.leaderLog
  {
    exists u :: u in h.elections && t < u < bound && !Agree(h.elections[u].log, h.leaderLog[t], i)
  }

  ghost predicate Kept(h: History, log: seq<Entry>, t: int, i: int, bound: int)
    requires t in h.leaderLog
  {
    Agree(log, h.leaderLog[t], i) || Dropped(h, t, i, bound)
  }

  ghost predicate KeptByVoter(h: History, t: int, i: int, v: nat, u: int)
    requires t in h.leaderLog && (u, v) in h.votes
  {
    Kept(h, h.votes[(u, v)].log, t, i, u) || (u in h.elections && v !in h.elections[u].quorum)
  }

  ghost predicate VotersKept(h: History) {
    forall t, v: nat, i, u ::
      InTerm(h, t, i) && Acked(h, t, v, i) && (u, v) in h.votes && t < u && !Ahead(h.votes[(u, v)].log, u) ==>
        KeptByVoter(h, t, i, v, u)
  }

  ghost predicate PeersKept(h: History, servers: seq<Server>) {
    forall t, v: nat, i :: InTerm(h, t, i) && Acked(h, t, v, i) && v < |servers| ==>
      Kept(h, servers[v].log, t, i, Reach(servers[v]) + 1)
  }

  ghost function Ackers(h: History, n: nat, t: int, i: int): set<nat> {
    set v: nat | v < n && Acked(h, t, v, i)
  }

  // A majority acknowledged the entry at `i`, which the leader of `t` itself created.
  ghost predicate Chosen(h: History, n: nat, t: int, i: int) {
    OwnEntry(h, t, i) && 2 * |Ackers(h, n, t, i)| > n
  }

  // The prefix up to `c` is covered by a chosen entry of the log.
  ghost predicate Certified(h: History, n: nat, log: seq<Entry>, c: int) {
    c == 0 || exists i :: 0 < c <= i < |log| && Chosen(h, n, log[i].term, i) && Agree(log, h.leaderLog[log[i].term], i)
  }

  ghost predicate ServerOk(h: History, n: nat, i: nat, s: Server) {
    && s.me == i && s.currentTerm >= 0
    && |s.nextIndex| == |s.matchIndex| == n
    && LogOk(h, s.log)
    && (s.role == Candidate ==> s.voteFor == i && s.currentTerm >= 1)
    && -1 <= s.voteFor < n
    && (s.voteFor == NONE ==> (s.currentTerm, i) !in h.votes)
    && (s.voteFor != NONE ==> VoteOf(h, s.currentTerm, i, s.voteFor))
    && (forall t :: (t, i) in h.votes ==> t <= s.currentTerm)
    && (forall t :: (t, i) in h.acks ==> t <= s.currentTerm)
    && (forall t :: t in h.elections && h.elections[t].leader == i ==>
          t <= s.currentTerm && (t == s.currentTerm ==> s.role != Candidate))
    && (s.role == Leader ==> LeaderOk(h, n, i, s))
    && 0 <= s.lastApplied <= s.commitIndex < |s.log|
    && Certified(h, n, s.log, s.commitIndex)
  }

  ghost predicate LeaderOk(h: History, n: nat, i: nat, s: Server) {
    && s.currentTerm in h.elections && h.elections[s.currentTerm].leader == i
    && s.currentTerm in h.leaderLog && h.leaderLog[s.currentTerm] == s.log
    && Acked(h, s.currentTerm, i, |s.log| - 1)
    && |s.nextIndex| == |s.matchIndex| == n
    && forall j :: 0 <= j < n ==>
         && 1 <= s.nextIndex[j] <= |s.log|
         && s.matchIndex[j] >= 0
         && (s.matchIndex[j] > 0 ==> Acked(h, s.currentTerm, j, s.matchIndex[j]))
  }

  ghost predicate ServersOk(h: History, servers: seq<Server>) {
    forall i :: 0 <= i < |servers| ==> ServerOk(h, |servers|, i, servers[i])
  }

  // Every vote for a peer that is still a candidate fits the log it campaigns with.
  ghost predicate CandidatesOk(h: History, servers: seq<Server>) {
    forall t, v: nat, c: nat :: c < |servers| && VoteOf(h, t, v, c) ==>
      && t <= servers[c].currentTerm
      && (servers[c].role == Candidate && servers[c].currentTerm == t ==> UpToDateLog(servers[c].log, h.votes[(t, v)].log))
  }

  // A candidate has counted distinct votes that were cast for it, none of them from a call still open.
  ghost predicate CountsOk(st: State) {
    forall c :: 0 <= c < |st.servers| && st.servers[c].role == Candidate ==>
      var t := st.servers[c].currentTerm;
      && (t, c) in st.h.counted
      && |st.h.counted[(t, c)]| == st.servers[c].receivedVotes
      && (forall v :: v in st.h.counted[(t, c)] ==> v < |st.servers| && VoteOf(st.h, t, v, c) && (t, c, v) !in st.voteCalls)
  }

  ghost predicate CallsOk(st: State) {
    forall t, c, v :: (t, c, v) in st.voteCalls ==> v < |st.servers| && c < |st.servers| && t <= st.servers[c].currentTerm
  }

  ghost predicate VoteArgsOk(servers: seq<Server>, a: RequestVoteArgs) {
    && 0 <= a.candidateId < |servers|
    && var c := servers[a.candidateId];
       && a.term <= c.currentTerm
       && (c.role == Candidate && c.currentTerm == a.term && |c.log| > 0 ==>
             a.lastLogIndex == LastIndex(c.log) && a.lastLogTerm == LastTerm(c.log))
  }

  // The message carries a stretch of the log of the leader of `t`, and commits nothing beyond what it carries.
  ghost predicate Carries(h: History, n: nat, a: AppendArgs, t: int) {
    && t in h.elections && t in h.leaderLog && h.elections[t].leader == a.leaderId
    && var l, k := h.leaderLog[t], a.prevLogIndex + |a.entries|;
       && 0 <= a.prevLogIndex && k < |l|
       && a.prevLogTerm == l[a.prevLogIndex].term
       && (forall j :: 0 <= j < |a.entries| ==> a.entries[j] == l[a.prevLogIndex + 1 + j])
       && 0 <= a.leaderCommit <= k
       && Certified(h, n, l[..k + 1], a.leaderCommit)
  }

  ghost predicate AppendArgsOk(h: History, n: nat, a: AppendArgs) {
    Carries(h, n, a, a.term)
  }

  /** A message that was sent in term `t` by a round of an earlier term of the same leader.  A peer that has not reached
      `t` is sent what follows the log with which the leader started. */
  ghost predicate LateArgs(h: History, servers: seq<Server>, to: nat, a: AppendArgs, t: int) {
    && a.term < t && a.term in h.elections && h.elections[a.term].leader == a.leaderId
    && Carries(h, |servers|, a, t)
    && to < |servers| && (t <= servers[to].currentTerm || a.prevLogIndex == |h.elections[t].log| - 1)
  }

  ghost predicate RequestOk(h: History, servers: seq<Server>, to: nat, a: AppendArgs) {
    AppendArgsOk(h, |servers|, a) || (h.late && exists t :: LateArgs(h, servers, to, a, t))
  }

  // The leader still has use for the answer only if the message was timely.
  ghost predicate AnswerOk(h: History, servers: seq<Server>, f: nat, a: AppendArgs, r: AppendReply) {
    && f < |servers| && r.term <= servers[f].currentTerm
    && (|| (0 <= a.leaderId < |servers| && a.term < servers[a.leaderId].currentTerm)
        || (&& AppendArgsOk(h, |servers|, a)
            && (r.success ==> Acked(h, a.term, f, a.prevLogIndex + |a.entries|))
            && (!r.success && r.term == a.term ==> r.conflictIndex <= a.prevLogIndex)))
  }

  ghost predicate MessageOk(h: History, servers: seq<Server>, m: Message) {
    match m
    case VoteRequest(to, a) => VoteArgsOk(servers, a)
    case VoteAnswer(c, v, a, r) =>
      c == a.candidateId && (r.voteGranted ==> r.term == a.term && VoteOf(h, a.term, v, a.candidateId))
    case AppendRequest(to, a) => to != a.leaderId && RequestOk(h, servers, to, a)
    case AppendAnswer(l, f, a, r) => l == a.leaderId && AnswerOk(h, servers, f, a, r)
  }

  ghost predicate NetworkOk(h: History, servers: seq<Server>, network: set<Message>) {
    forall m :: m in network ==> MessageOk(h, servers, m)
  }

  // As long as a peer has not reached the leader's term, the leader has not moved that peer's next index.
  ghost predicate NextAt(h: History, servers: seq<Server>, i: nat, j: nat)
    requires i < |servers| && j < |servers|
  {
    var s := servers[i];
    && s.currentTerm in h.elections && j < |s.nextIndex|
    && (s.nextIndex[j] == |h.elections[s.currentTerm].log| || s.currentTerm <= servers[j].currentTerm)
  }

  ghost predicate NextOk(h: History, servers: seq<Server>) {
    forall i: nat, j: nat :: i < |servers| && j < |servers| && i != j && servers[i].role == Leader ==>
      NextAt(h, servers, i, j)
  }

  // ---------------------------------------------------------------- late messages

  // The leader of `t` started with all of the log of every leader from `c` on.
  ghost predicate Covers(h: History, c: int, t: int) {
    t in h.elections && forall u :: u in h.leaderLog && c <= u < t ==> h.leaderLog[u] <= h.elections[t].log
  }

  ghost predicate OwnVoteOnly(h: History, t: int, i: nat) {
    forall v: nat :: (t, v) in h.votes && h.votes[(t, v)].candidate == i ==> v == i
  }

  /** A peer gets ahead of its term only by a late message, in a cluster of at most four peers.  The leaders of the terms
      it skips have left nothing to undo, and nobody votes for it in these terms. */
  ghost predicate LagOk(h: History, i: nat, s: Server) {
    Ahead(s.log, s.currentTerm) ==>
      && h.late && Covers(h, s.currentTerm, LastTerm(s.log))
      && (s.role == Candidate ==> OwnVoteOnly(h, s.currentTerm, i))
  }

  ghost predicate LagsOk(h: History, servers: seq<Server>) {
    && (h.late ==> |servers| <= 4)
    && forall i: nat :: i < |servers| ==> LagOk(h, i, servers[i])
  }

  // The vote in term `t` was cast with a log older than term `w`.
  ghost predicate Lacks(h: History, t: int, v: nat, w: int) {
    (t, v) in h.votes && |h.votes[(t, v)].log| > 0 && LastTerm(h.votes[(t, v)].log) < w
  }

  /** Where a peer that voted in `t` without entries of term `w` may have got them from up to `bound`: the leader of `t`,
      or a later leader that did not vote like that. */
  ghost predicate Source(h: History, t: int, w: int, bound: int) {
    || (t in h.elections && |h.elections[t].log| > 0 && w <= LastTerm(h.elections[t].log))
    || exists u :: u in h.elections && t < u <= bound && !Lacks(h, t, h.elections[u].leader, w)
  }

  ghost predicate PeerSources(h: History, i: nat, s: Server) {
    forall t, k :: 0 <= k < |s.log| && s.log[k].term < t && Lacks(h, t, i, s.log[k].term) ==>
      Source(h, t, s.log[k].term, s.currentTerm)
  }

  ghost predicate StartSources(h: History, u: int)
    requires u in h.elections
  {
    var log := h.elections[u].log;
    forall t, k :: 0 <= k < |log| && log[k].term < t < u ==> Source(h, t, log[k].term, u)
  }

  ghost predicate SourcesOk(h: History, servers: seq<Server>) {
    && (forall i: nat :: i < |servers| ==> PeerSources(h, i, servers[i]))
    && (forall u :: u in h.elections ==> StartSources(h, u))
  }

  ghost predicate Inv(st: State) {
    && HistoryOk(st.h, |st.servers|)
    && VotersKept(st.h)
    && PeersKept(st.h, st.servers)
    && ServersOk(st.h, st.servers)
    && CandidatesOk(st.h, st.servers)
    && CountsOk(st) && CallsOk(st)
    && NetworkOk(st.h, st.servers, st.network)
    && NextOk(st.h, st.servers)
    && LagsOk(st.h, st.servers)
    && SourcesOk(st.h, st.servers)
  }

  // ---------------------------------------------------------------- logs and quorums

  lemma LogShape(h: History, log: seq<Entry>)
    requires LogOk(h, log)
    ensures Contiguous(log) && First(log) == 0 && NextIndex(log) == |log|
  {
  }

  // Log matching: equal terms at an index mean equal logs up to it.
  lemma LogMatching(h: History, a: seq<Entry>, b: seq<Entry>, i: int)
    requires LogOk(h, a) && LogOk(h, b)
    requires 0 <= i < |a| && i < |b| && a[i].term == b[i].term
    ensures Agree(a, b, i)
  {
    if i > 0 {
      var l := h.leaderLog[a[i].term];
      assert Agree(a, l, i) && Agree(b, l, i);
    }
  }

  lemma SubsetSize(a: set<nat>, b: set<nat>)
    requires a <= b
    ensures |a| <= |b|
  {
    assert b == a + (b - a);
  }

  lemma BelowSize(n: nat, q: set<nat>)
    requires forall j :: j in q ==> j < n
    ensures |q| <= n
  {
    if n == 0 {
      assert q == {};
    } else {
      BelowSize(n - 1, q - {n - 1});
      assert |q| <= |q - {n - 1}| + 1;
    }
  }

  lemma QuorumsMeet(n: nat, p: set<nat>, q: set<nat>) returns (x: nat)
    requires forall j :: j in p ==> j < n
    requires forall j :: j in q ==> j < n
    requires 2 * |p| > n && 2 * |q| > n
    ensures x in p && x in q
  {
    BelowSize(n, p + q);
    assert |p + q| + |p * q| == |p| + |q|;
    assert p * q != {};
    x :| x in p * q;
  }

  // ---------------------------------------------------------------- leader completeness

  // Every leader of a later term starts with all that was chosen before.
  lemma {:induction false} ChosenStays(h: History, n: nat, t: int, i: int, u: int)
    requires HistoryOk(h, n) && VotersKept(h)
    requires Chosen(h, n, t, i) && u in h.elections && t < u
    ensures Agree(h.elections[u].log, h.leaderLog[t], i)
    decreases u
  {
    assert ElectionOk(h, n, t) && ElectionOk(h, n, u);
    var e := h.elections[u];
    var v := QuorumsMeet(n, Ackers(h, n, t, i), e.quorum);
    assert KeptByVoter(h, t, i, v, u);
    var vlog := h.votes[(u, v)].log;
    if Dropped(h, t, i, u) {
      var w :| w in h.elections && t < w < u && !Agree(h.elections[w].log, h.leaderLog[t], i);
      ChosenStays(h, n, t, i, w);
      assert false;
    }
    assert Agree(vlog, h.leaderLog[t], i);
    UpToDateHolds(h, n, t, i, u, vlog);
  }

  // The winner's log is at least as recent as that of a voter who holds the entry, so it holds it too.
  lemma {:induction false} UpToDateHolds(h: History, n: nat, t: int, i: int, u: int, vlog: seq<Entry>)
    requires HistoryOk(h, n) && VotersKept(h)
    requires Chosen(h, n, t, i) && u in h.elections && t < u
    requires LogOk(h, vlog) && Agree(vlog, h.leaderLog[t], i) && UpToDateLog(h.elections[u].log, vlog)
    ensures Agree(h.elections[u].log, h.leaderLog[t], i)
    decreases u, 0
  {
    hide LogOk, VotersKept, HistoryOk;
    var elog, l := h.elections[u].log, h.leaderLog[t];
    ElectionFacts(h, n, t);
    ElectionFacts(h, n, u);
    LogStart(h, elog);
    var w := LastTerm(elog);
    LastTermLargest(h, n, vlog, i);
    LastPrefix(h, n, elog);
    if w == LastTerm(vlog) {
      LastPrefix(h, n, vlog);
      AgreeTrans(elog, h.leaderLog[w], vlog, |vlog| - 1);
      AgreeTrans(elog, vlog, l, i);
    } else {
      ChosenStays(h, n, t, i, w);
      ElectionFacts(h, n, w);
      AgreeTrans(elog, h.leaderLog[w], h.elections[w].log, |h.elections[w].log| - 1);
      AgreeTrans(elog, h.elections[w].log, l, i);
    }
  }

  lemma AgreeTrans(a: seq<Entry>, b: seq<Entry>, c: seq<Entry>, i: int)
    requires 0 <= i < |a| && i < |b| && i < |c|
    requires forall j :: 0 <= j <= i ==> a[j] == b[j] == c[j]
    ensures Agree(a, c, i)
  {
  }

  // What the proofs above need to know of an election, without unfolding the logs.
  lemma ElectionFacts(h: History, n: nat, t: int)
    requires HistoryOk(h, n) && t in h.elections
    ensures t in h.leaderLog
    ensures var e, l := h.elections[t].log, h.leaderLog[t];
      && t >= 1 && LogOk(h, e) && LogOk(h, l) && TermsBelow(e, t) && e <= l
      && (forall i :: |e| <= i < |l| ==> l[i].term == t)
  {
    assert ElectionOk(h, n, t);
  }

  // A log is a prefix of the log of the leader of its last term.
  lemma LastPrefix(h: History, n: nat, log: seq<Entry>)
    requires HistoryOk(h, n) && LogOk(h, log) && |log| > 1
    ensures LastTerm(log) in h.elections && LastIndex(log) == |log| - 1
    ensures log <= h.leaderLog[LastTerm(log)]
  {
    assert Agree(log, h.leaderLog[LastTerm(log)], |log| - 1);
  }

  lemma LogStart(h: History, log: seq<Entry>)
    requires LogOk(h, log)
    ensures |log| > 0 && log[0] == MARKER
  {
  }

  lemma LastTermLargest(h: History, n: nat, log: seq<Entry>, i: int)
    requires HistoryOk(h, n) && LogOk(h, log) && 0 <= i < |log|
    ensures log[i].term <= LastTerm(log)
  {
    if |log| > 1 {
      var t := LastTerm(log);
      assert ElectionOk(h, n, t);
      assert Agree(log, h.leaderLog[t], |log| - 1);
      assert log[i] == h.leaderLog[t][i];
    }
  }
}
