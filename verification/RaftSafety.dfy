/** The safety of whole runs: any number of peers, messages lost, delayed, reordered or repeated,
    peers killed and restarted.
 */
module RaftSafety {
  import opened Basics
  import opened RaftLog
  import opened RaftHandlers
  import opened RaftProtocol
  import opened RaftInvariant
  import opened RaftFrame
  import opened RaftSteps
  import opened RaftReplication

  lemma InitInv(n: nat)
    ensures Inv(Init(n))
  {
  }

  // Without compaction no enabled step indexes outside a log, and none needs a snapshot.
  lemma NeverOutOfRange(st: State, e: Event)
    requires Inv(st) && Enabled(st, e)
    ensures InRange(st, e)
  {
    hide LogOk, LeaderOk, Certified, VotersKept, PeersKept, CandidatesOk, CountsOk, CallsOk, HistoryOk, Carries,
      CanSend, CanHandle, MakeAppend, LagsOk, SourcesOk, NextOk;
    var s := st.servers[e.i];
    assert ServerOk(st.h, |st.servers|, e.i, s);
    LogShape(st.h, s.log);
    if e.SendAppend? {
      SentOk(st.h, |st.servers|, e.i, s, e.peer, e.captured);
    } else if e.DeliverAppendAnswer? {
      assert MessageOk(st.h, st.servers, AppendAnswer(e.i, e.follower, e.args, e.reply));
      if s.role == Leader && s.currentTerm == e.args.term {
        ResponseRange(st.h, |st.servers|, e.i, s, e.follower, e.args);
      }
    }
  }

  lemma StepKeeps(st: State, e: Event, st': State)
    requires Inv(st) && Step(st, e, st') && (Timely(st, e) || |st.servers| <= 4)
    ensures Inv(st') && Grows(st.h, st'.h)
  {
    hide LogOk, LeaderOk, Certified, VotersKept, PeersKept, CandidatesOk, CountsOk, CallsOk, HistoryOk, Carries,
      CanSend, CanHandle, LagsOk, SourcesOk, NextOk, ServersOk, MessageOk, Ask, Answer, Count, Propose, Receive,
      Replicate, AppendResponse;
    match e
    case Timeout(i) => AskInv(st, i);
    case DeliverVoteRequest(i, a) => DeliveredVote(st, i, a); AnswerInv(st, i, a);
    case DeliverVoteAnswer(i, voter, a, r) =>
      assert MessageOk(st.h, st.servers, VoteAnswer(i, voter, a, r));
      CountInv(st, i, voter, a, r);
    case ClientRequest(i, c) => ProposeInv(st, i, c);
    case SendAppend(i, peer, captured) => ReplicateInv(st, i, peer, captured);
    case DeliverAppend(i, a) => ReceiveInv(st, i, a);
    case DeliverAppendAnswer(i, f, a, r) =>
      assert MessageOk(st.h, st.servers, AppendAnswer(i, f, a, r));
      ResponseInv(st, i, f, a, r);
    case ApplyCommitted(i) => ApplyInv(st, i);
    case Crash(i) => StepDownInv(st, i, Kill(st.servers[i]));
    case Reboot(i) => StepDownInv(st, i, Restart(st.servers[i]));
  }

  lemma DeliveredVote(st: State, i: nat, a: RequestVoteArgs)
    requires NetworkOk(st.h, st.servers, st.network) && VoteRequest(i, a) in st.network
    ensures VoteArgsOk(st.servers, a)
  {
    assert MessageOk(st.h, st.servers, VoteRequest(i, a));
  }

  // ---------------------------------------------------------------- runs

  lemma {:induction false} RunInv(n: nat, states: seq<State>, events: seq<Event>, k: nat)
    requires CalmRun(n, states, events) && k < |states|
    ensures Inv(states[k]) && |states[k].servers| == n
  {
    hide Inv, Step;
    if k == 0 {
      InitInv(n);
    } else {
      RunInv(n, states, events, k - 1);
      StepKeeps(states[k - 1], events[k - 1], states[k]);
      StepSize(states[k - 1], events[k - 1], states[k]);
    }
  }

  lemma StepSize(st: State, e: Event, st': State)
    requires Step(st, e, st')
    ensures |st'.servers| == |st.servers|
  {
  }

  // In a timely run no peer gets ahead of its term, and all messages carry the log of their own term's leader.
  lemma {:induction false} NeverLate(n: nat, states: seq<State>, events: seq<Event>, k: nat)
    requires TimelyRun(n, states, events) && k < |states|
    ensures !states[k].h.late
  {
    hide Step, Timely;
    if k > 0 {
      NeverLate(n, states, events, k - 1);
      StaysTimely(states[k - 1], events[k - 1], states[k]);
    }
  }

  lemma StaysTimely(st: State, e: Event, st': State)
    requires Step(st, e, st') && Timely(st, e)
    ensures st'.h.late == st.h.late
  {
    hide AppendEntries, RequestVote, VoteReply, AppendResponse, MakeAppend, CanSend, CanHandle;
  }

  lemma {:induction false} RunGrows(n: nat, states: seq<State>, events: seq<Event>, a: nat, b: nat)
    requires CalmRun(n, states, events) && a <= b < |states|
    ensures Grows(states[a].h, states[b].h)
    decreases b
  {
    hide Inv, Step;
    if a < b {
      RunGrows(n, states, events, a, b - 1);
      RunInv(n, states, events, b - 1);
      StepKeeps(states[b - 1], events[b - 1], states[b]);
      GrowsTransitive(states[a].h, states[b - 1].h, states[b].h);
    }
  }

  ghost predicate Leads(st: State, i: nat, term: int) {
    i < |st.servers| && st.servers[i].role == Leader && st.servers[i].currentTerm == term
  }

  // At most one peer leads a term, over the whole run.
  lemma ElectionSafety(n: nat, states: seq<State>, events: seq<Event>, a: nat, b: nat, i: nat, j: nat, term: int)
    requires CalmRun(n, states, events) && a <= b < |states|
    requires Leads(states[a], i, term) && Leads(states[b], j, term)
    ensures i == j
    // a leader only ever appends to its log
    ensures states[a].servers[i].log <= states[b].servers[j].log
  {
    hide LogOk, Certified, VotersKept, PeersKept, CandidatesOk, CountsOk, CallsOk, HistoryOk, NetworkOk, Step;
    RunInv(n, states, events, a);
    RunInv(n, states, events, b);
    RunGrows(n, states, events, a, b);
    assert ServerOk(states[a].h, n, i, states[a].servers[i]) && ServerOk(states[b].h, n, j, states[b].servers[j]);
  }

  // Logs that agree on the term at an index, at any two times, agree on everything before it.
  lemma LogMatchingOverTime(n: nat, states: seq<State>, events: seq<Event>, a: nat, b: nat, i: nat, j: nat, k: int)
    requires CalmRun(n, states, events) && a <= b < |states| && i < n && j < n
    requires |states[a].servers| == |states[b].servers| == n
    requires 0 <= k < |states[a].servers[i].log| && k < |states[b].servers[j].log|
    requires states[a].servers[i].log[k].term == states[b].servers[j].log[k].term
    ensures states[a].servers[i].log[..k + 1] == states[b].servers[j].log[..k + 1]
  {
    hide LogOk, Certified, VotersKept, PeersKept, CandidatesOk, CountsOk, CallsOk, HistoryOk, NetworkOk, Step, Grows;
    RunInv(n, states, events, a);
    RunInv(n, states, events, b);
    RunGrows(n, states, events, a, b);
    assert ServerOk(states[a].h, n, i, states[a].servers[i]) && ServerOk(states[b].h, n, j, states[b].servers[j]);
    GrowLogOk(states[a].h, states[b].h, states[a].servers[i].log);
    LogMatching(states[b].h, states[a].servers[i].log, states[b].servers[j].log, k);
  }

  // Two chosen prefixes never contradict each other.
  lemma ChosenAgree(h: History, n: nat, t: int, i: int, u: int, j: int, k: int)
    requires HistoryOk(h, n) && VotersKept(h) && Chosen(h, n, t, i) && Chosen(h, n, u, j) && 0 <= k <= i && k <= j
    ensures h.leaderLog[t][k] == h.leaderLog[u][k]
  {
    hide LogOk, VotersKept, HistoryOk;
    ElectionFacts(h, n, t);
    ElectionFacts(h, n, u);
    if t < u {
      ChosenStays(h, n, t, i, u);
    } else if u < t {
      ChosenStays(h, n, u, j, t);
    }
  }

  lemma CertifiedAgree(h: History, n: nat, a: seq<Entry>, c: int, b: seq<Entry>, d: int, k: int)
    requires HistoryOk(h, n) && VotersKept(h)
    requires Certified(h, n, a, c) && Certified(h, n, b, d)
    requires 0 < k <= c < |a| && k <= d < |b|
    ensures a[k] == b[k]
  {
    hide VotersKept, HistoryOk;
    var i :| 0 < c <= i < |a| && Chosen(h, n, a[i].term, i) && Agree(a, h.leaderLog[a[i].term], i);
    var j :| 0 < d <= j < |b| && Chosen(h, n, b[j].term, j) && Agree(b, h.leaderLog[b[j].term], j);
    ChosenAgree(h, n, a[i].term, i, b[j].term, j, k);
  }

  ghost predicate Commits(st: State, i: nat, k: int) {
    && i < |st.servers|
    && 0 < k <= st.servers[i].commitIndex < |st.servers[i].log|
  }

  /** State machine safety: whatever two peers commit at an index, at any two times of the run and even
      across restarts, is the same entry. */
  lemma StateMachineSafety(n: nat, states: seq<State>, events: seq<Event>, a: nat, b: nat, i: nat, j: nat, k: int)
    requires CalmRun(n, states, events) && a <= b < |states|
    requires Commits(states[a], i, k) && Commits(states[b], j, k)
    ensures states[a].servers[i].log[k] == states[b].servers[j].log[k]
  {
    hide LogOk, Certified, VotersKept, PeersKept, CandidatesOk, CountsOk, CallsOk, HistoryOk, NetworkOk, Step, Grows;
    RunInv(n, states, events, a);
    RunInv(n, states, events, b);
    RunGrows(n, states, events, a, b);
    var s, s' := states[a].servers[i], states[b].servers[j];
    assert ServerOk(states[a].h, n, i, s) && ServerOk(states[b].h, n, j, s');
    GrowCertified(states[a].h, states[b].h, n, s.log, s.commitIndex);
    CertifiedAgree(states[b].h, n, s.log, s.commitIndex, s'.log, s'.commitIndex, k);
  }

  /** Leader completeness: what a peer has committed is in the log of every leader of a term after the last one of the
      peer's log, whether that leader leads before, at or after the moment of the commit, and in the log of the leader
      of that last term from then on. */
  lemma LeaderCompleteness(n: nat, states: seq<State>, events: seq<Event>, a: nat, b: nat, i: nat, j: nat, k: int)
    requires CalmRun(n, states, events) && a < |states| && b < |states|
    requires Commits(states[a], i, k)
    requires j < |states[b].servers| && states[b].servers[j].role == Leader
    requires
      || LastTerm(states[a].servers[i].log) < states[b].servers[j].currentTerm
      || (LastTerm(states[a].servers[i].log) == states[b].servers[j].currentTerm && a <= b)
    ensures k < |states[b].servers[j].log| && states[b].servers[j].log[k] == states[a].servers[i].log[k]
  {
    hide LogOk, VotersKept, PeersKept, CandidatesOk, CountsOk, CallsOk, HistoryOk, NetworkOk, SourcesOk, NextOk, Step,
      Grows, Certified;
    RunInv(n, states, events, a);
    RunInv(n, states, events, b);
    var s, s' := states[a].servers[i], states[b].servers[j];
    assert ServerOk(states[a].h, n, i, s) && ServerOk(states[b].h, n, j, s');
    if a <= b {
      RunGrows(n, states, events, a, b);
      GrowCertified(states[a].h, states[b].h, n, s.log, s.commitIndex);
      GrowLogOk(states[a].h, states[b].h, s.log);
      LeaderHolds(states[b].h, n, j, s', s.log, s.commitIndex);
    } else {
      RunGrows(n, states, events, b, a);
      EarlierLeaderHolds(states[b].h, states[a].h, n, j, s', s.log, s.commitIndex);
    }
  }

  /** In a timely run no log is ahead of its peer's term, so the same holds of the leaders of all terms after the one in
      which the peer committed. */
  lemma LaterLeadersComplete(n: nat, states: seq<State>, events: seq<Event>, a: nat, b: nat, i: nat, j: nat, k: int)
    requires TimelyRun(n, states, events) && a < |states| && b < |states|
    requires Commits(states[a], i, k)
    requires j < |states[b].servers| && states[b].servers[j].role == Leader
    requires
      || states[a].servers[i].currentTerm < states[b].servers[j].currentTerm
      || (states[a].servers[i].currentTerm == states[b].servers[j].currentTerm && a <= b)
    ensures k < |states[b].servers[j].log| && states[b].servers[j].log[k] == states[a].servers[i].log[k]
  {
    hide LogOk, VotersKept, PeersKept, CandidatesOk, CountsOk, CallsOk, HistoryOk, NetworkOk, SourcesOk, NextOk, Step,
      Certified;
    RunInv(n, states, events, a);
    NeverLate(n, states, events, a);
    var s := states[a].servers[i];
    assert ServerOk(states[a].h, n, i, s) && LagOk(states[a].h, i, s);
    LeaderCompleteness(n, states, events, a, b, i, j, k);
  }

  // A leader of a later term had the entry when it was elected, even if it is committed only afterwards.
  lemma EarlierLeaderHolds(h: History, h': History, n: nat, j: nat, s: Server, log: seq<Entry>, c: int)
    requires HistoryOk(h, n) && LeaderOk(h, n, j, s) && Grows(h, h')
    requires HistoryOk(h', n) && VotersKept(h') && LogOk(h', log)
    requires Certified(h', n, log, c) && 0 < c < |log| && LastTerm(log) < s.currentTerm
    ensures Agree(s.log, log, c)
  {
    hide LogOk, VotersKept, HistoryOk;
    var i :| 0 < c <= i < |log| && Chosen(h', n, log[i].term, i) && Agree(log, h'.leaderLog[log[i].term], i);
    LastTermLargest(h', n, log, i);
    ElectionFacts(h, n, s.currentTerm);
    ChosenStays(h', n, log[i].term, i, s.currentTerm);
  }

  lemma LeaderHolds(h: History, n: nat, j: nat, s: Server, log: seq<Entry>, c: int)
    requires HistoryOk(h, n) && VotersKept(h) && LeaderOk(h, n, j, s) && LogOk(h, log)
    requires Certified(h, n, log, c) && 0 < c < |log| && LastTerm(log) <= s.currentTerm
    ensures Agree(s.log, log, c)
  {
    hide LogOk, VotersKept, HistoryOk;
    var i :| 0 < c <= i < |log| && Chosen(h, n, log[i].term, i) && Agree(log, h.leaderLog[log[i].term], i);
    LastTermLargest(h, n, log, i);
    ElectionFacts(h, n, s.currentTerm);
    if log[i].term < s.currentTerm {
      ChosenStays(h, n, log[i].term, i, s.currentTerm);
    }
  }

  /** A follower's commit is safe: whatever message it accepts, it then holds the log of one leader up to the end of the
      message, the message's commit index does not reach beyond that, and the follower commits exactly as far.  It is the
      leader of the message's own term, unless the message was sent late. */
  lemma FollowerCommitSafe(n: nat, states: seq<State>, events: seq<Event>, k: nat, i: nat, a: AppendArgs) returns (t: int)
    requires CalmRun(n, states, events) && k < |states| && i < |states[k].servers|
    requires AppendRequest(i, a) in states[k].network
    ensures Contiguous(states[k].servers[i].log) && a.term <= t && t in states[k].h.leaderLog
    ensures TimelyRun(n, states, events) ==> t == a.term
    ensures
      var s, (s', r) := states[k].servers[i], AppendEntries(states[k].servers[i], a);
      r.success ==>
        && Agree(s'.log, states[k].h.leaderLog[t], a.prevLogIndex + |a.entries|)
        && a.leaderCommit <= a.prevLogIndex + |a.entries|
        && s'.commitIndex == Max(s.commitIndex, a.leaderCommit)
  {
    hide LogOk, Certified, VotersKept, PeersKept, CandidatesOk, CountsOk, CallsOk, HistoryOk, LagsOk, SourcesOk,
      NextOk, Step, Merge, Agree;
    RunInv(n, states, events, k);
    if TimelyRun(n, states, events) {
      NeverLate(n, states, events, k);
    }
    var st := states[k];
    assert MessageOk(st.h, st.servers, AppendRequest(i, a));
    assert ServerOk(st.h, n, i, st.servers[i]);
    t := a.term;
    if !AppendArgsOk(st.h, n, a) {
      t :| LateArgs(st.h, st.servers, i, a, t);
    }
    AcceptedAgrees(st, n, i, a, t);
  }

  lemma AcceptedAgrees(st: State, n: nat, i: nat, a: AppendArgs, t: int)
    requires i < |st.servers| == n && HistoryOk(st.h, n) && ServerOk(st.h, n, i, st.servers[i]) && Carries(st.h, n, a, t)
    ensures Contiguous(st.servers[i].log)
    ensures
      var s, (s', r) := st.servers[i], AppendEntries(st.servers[i], a);
      r.success ==>
        && Agree(s'.log, st.h.leaderLog[t], a.prevLogIndex + |a.entries|)
        && s'.commitIndex == Max(s.commitIndex, a.leaderCommit)
  {
    hide LogOk, Certified, Merge, HistoryOk, Merged;
    var s := st.servers[i];
    LogShape(st.h, s.log);
    if AppendEntries(s, a).1.success {
      var k := a.prevLogIndex + |a.entries|;
      MergeMeaning(st.h, n, s.log, a, t);
      MergedReaches(s.log, st.h.leaderLog[t], k, Merge(s.log, a.prevLogIndex, a.entries));
      MergedLogOk(st.h, n, s.log, t, k, Merge(s.log, a.prevLogIndex, a.entries));
      LogShape(st.h, Merge(s.log, a.prevLogIndex, a.entries));
    }
  }
}
