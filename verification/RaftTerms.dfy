/** Terms and votes over whole runs: a peer's term never falls, its vote never changes within a term, and whatever
    message it handles, it learns a larger term from it. */
module RaftTerms {
  import opened Basics
  import opened RaftLog
  import opened RaftHandlers
  import opened RaftProtocol
  import opened RaftInvariant
  import opened RaftReplication
  import opened RaftSafety

  // ---------------------------------------------------------------- one peer

  // The peer has just joined a term that is larger than its own.
  ghost predicate Joined(s: Server, term: int) {
    s.role == Follower && s.currentTerm == term
  }

  /** The vote rule: a living peer gives its vote exactly to a candidate of its own or a later term whose last entry is at
      least as recent as its own, unless it has given its vote of that term to another one. */
  lemma VoteExactly(s: Server, a: RequestVoteArgs)
    requires |s.log| > 0
    ensures
      var (s', r) := RequestVote(s, a);
      var e := s.log[|s.log| - 1];
      && (r.voteGranted <==>
            && s.role != Dead && s.currentTerm <= a.term
            && (s.currentTerm == a.term ==> s.voteFor in {NONE, a.candidateId})
            && (e.term < a.lastLogTerm || (e.term == a.lastLogTerm && e.index <= a.lastLogIndex)))
      && (r.voteGranted ==> s'.voteFor == a.candidateId && s'.currentTerm == a.term == r.term)
      && (s.role != Dead ==> r.term == s'.currentTerm == Max(s.currentTerm, a.term))
      && (s.role != Dead && s.currentTerm < a.term ==> Joined(s', a.term) && (!r.voteGranted ==> s'.voteFor == NONE))
      && (s.currentTerm >= a.term || s.role == Dead ==> s' == s.(voteFor := s'.voteFor))
      && (!r.voteGranted && s.currentTerm >= a.term ==> s'.voteFor == s.voteFor)
      && s'.log == s.log && s'.commitIndex == s.commitIndex && s'.lastApplied == s.lastApplied
  {
  }

  /** A living peer accepts a message exactly when the message is not of an earlier term and its log holds the entry
      before the message's ones; then it follows that term, and its answer tells its term. */
  lemma AppendExactly(s: Server, a: AppendArgs)
    requires Contiguous(s.log) && First(s.log) == 0 && a.prevLogIndex >= 0
    ensures
      var (s', r) := AppendEntries(s, a);
      && (r.success <==>
            && s.role != Dead && s.currentTerm <= a.term
            && a.prevLogIndex < |s.log| && s.log[a.prevLogIndex].term == a.prevLogTerm)
      && (s.role != Dead ==> r.term == s'.currentTerm == Max(s.currentTerm, a.term))
      && (s.role != Dead && s.currentTerm <= a.term ==> Joined(s', a.term))
      && (s.role != Dead && s.currentTerm < a.term ==> s'.voteFor == NONE)
      && (s.currentTerm == a.term ==> s'.voteFor == s.voteFor)
      && (s.currentTerm > a.term || s.role == Dead ==> s' == s)
      && (!r.success ==> s'.log == s.log && s'.commitIndex == s.commitIndex)
      && s'.lastApplied == s.lastApplied && s'.nextIndex == s.nextIndex && s'.matchIndex == s.matchIndex
  {
    hide Merge, RunStart;
  }

  /** What a leader makes of an answer to a message of its term: it sends again exactly after a refusal in its own term;
      what a peer has acknowledged never shrinks, and nobody else's indices change. */
  lemma ResponseExactly(s: Server, f: nat, a: AppendArgs, r: AppendReply)
    requires s.role == Leader && s.currentTerm == a.term ==> CanHandle(s, f, a)
    ensures
      var (s', again), mine := AppendResponse(s, f, a, r), s.role == Leader && s.currentTerm == a.term;
      && (again <==> mine && r.term == s.currentTerm && !r.success)
      && (!mine ==> s' == s) && s'.log == s.log && s'.lastApplied == s.lastApplied && s.commitIndex <= s'.commitIndex
      && (mine && r.term == s.currentTerm && r.success ==>
            && s'.matchIndex[f] == Max(s.matchIndex[f], a.prevLogIndex + |a.entries|) && s'.nextIndex[f] == s'.matchIndex[f] + 1)
      && (again ==> s'.matchIndex == s.matchIndex && s'.commitIndex == s.commitIndex)
      && |s'.nextIndex| == |s.nextIndex| && |s'.matchIndex| == |s.matchIndex|
      && (forall j :: 0 <= j < |s.nextIndex| && j != f ==> s'.nextIndex[j] == s.nextIndex[j])
      && (forall j :: 0 <= j < |s.matchIndex| && j != f ==> s'.matchIndex[j] == s.matchIndex[j])
      && (mine && r.term <= s.currentTerm ==> s'.role == Leader && s'.currentTerm == s.currentTerm && s'.voteFor == s.voteFor)
  {
    hide CommitScan, Backtrack;
    if s.role == Leader && s.currentTerm == a.term && r.term == s.currentTerm && r.success {
      var m := Max(s.matchIndex[f], a.prevLogIndex + |a.entries|);
      var s1 := s.(matchIndex := s.matchIndex[f := m], nextIndex := s.nextIndex[f := m + 1]);
      CommitMeaning(s1, s1.commitIndex + 1, s1.commitIndex);
    }
  }

  // The state of the same peer, as far as it is stored.
  ghost predicate SameStored(s: Server, t: Server) {
    && s.me == t.me && s.currentTerm == t.currentTerm && s.voteFor == t.voteFor && s.log == t.log
    && |s.nextIndex| == |t.nextIndex| && |s.matchIndex| == |t.matchIndex|
  }

  /** A restarted peer depends on nothing but what was stored: a follower with its term, vote and log, that has committed
      and applied nothing behind the log's first index and knows nothing of the others. */
  lemma RestartExactly(s: Server, t: Server)
    requires |s.log| > 0
    ensures
      var s' := Restart(s);
      && SameStored(s, s') && s'.role == Follower && s'.commitIndex == s'.lastApplied == s.log[0].index && s'.receivedVotes == 0
      && (forall j :: 0 <= j < |s'.nextIndex| ==> s'.nextIndex[j] == LastIndex(s.log) + 1)
      && (forall j :: 0 <= j < |s'.matchIndex| ==> s'.matchIndex[j] == 0)
      && (SameStored(s, t) ==> Restart(t) == s')
  {
  }

  // A peer that starts for the first time is one that has stored nothing yet.
  lemma FirstStart(n: nat, i: nat, s: Server)
    requires SameStored(s, FreshServer(n, i))
    ensures |s.log| > 0 && Restart(s) == FreshServer(n, i)
  {
    RestartExactly(FreshServer(n, i), s);
    assert seq(n, _ => NextIndex([MARKER])) == seq(n, _ => 1);
  }

  // ---------------------------------------------------------------- runs

  // What one step does to a peer's term and vote.
  lemma StepTerm(st: State, e: Event, st': State, i: nat)
    requires Step(st, e, st') && i < |st.servers|
    ensures |st'.servers| == |st.servers|
    ensures
      var s, s' := st.servers[i], st'.servers[i];
      s.currentTerm <= s'.currentTerm && (s'.currentTerm == s.currentTerm && s.voteFor != NONE ==> s'.voteFor == s.voteFor)
  {
    hide Merge, CommitScan, Backtrack, MakeAppend, RunStart, UpToDate, ToApply;
  }

  /** A peer's term never falls, and within a term it never changes its vote, at any two times of any run and across
      restarts. */
  lemma {:induction false} TermsAndVotesStay(n: nat, states: seq<State>, events: seq<Event>, a: nat, b: nat, i: nat)
    requires Run(n, states, events) && a <= b < |states| && i < n
    ensures |states[a].servers| == |states[b].servers| == n
    ensures
      var s, s' := states[a].servers[i], states[b].servers[i];
      s.currentTerm <= s'.currentTerm && (s'.currentTerm == s.currentTerm && s.voteFor != NONE ==> s'.voteFor == s.voteFor)
    decreases b
  {
    hide Step;
    if a < b {
      TermsAndVotesStay(n, states, events, a, b - 1, i);
      assert Step(states[b - 1], events[b - 1], states[b - 1 + 1]);
      StepTerm(states[b - 1], events[b - 1], states[b], i);
    } else if b > 0 {
      TermsAndVotesStay(n, states, events, b - 1, b - 1, i);
      assert Step(states[b - 1], events[b - 1], states[b - 1 + 1]);
      StepTerm(states[b - 1], events[b - 1], states[b], i);
    }
  }

  // The term that a message tells to the peer that handles it.
  ghost function TermOf(e: Event): int
    requires e.DeliverVoteRequest? || e.DeliverVoteAnswer? || e.DeliverAppend? || e.DeliverAppendAnswer?
  {
    match e
    case DeliverVoteRequest(i, a) => a.term
    case DeliverVoteAnswer(i, voter, a, r) => r.term
    case DeliverAppend(i, a) => a.term
    case DeliverAppendAnswer(i, f, a, r) => r.term
  }

  // The peer does not ignore the message: it is alive, and an answer is to a message of its present candidacy or rule.
  ghost predicate Heeds(s: Server, e: Event) {
    || (s.role != Dead && (e.DeliverVoteRequest? || e.DeliverAppend?))
    || (e.DeliverVoteAnswer? && s.role == Candidate && s.currentTerm == e.voteArgs.term)
    || (e.DeliverAppendAnswer? && s.role == Leader && s.currentTerm == e.args.term)
  }

  lemma HandlerLearns(st: State, e: Event, st': State)
    requires Step(st, e, st') && Heeds(st.servers[e.i], e)
    requires e.DeliverVoteAnswer? && e.vote.voteGranted ==> e.vote.term == e.voteArgs.term
    ensures e.i < |st'.servers| && st'.servers[e.i].currentTerm == Max(st.servers[e.i].currentTerm, TermOf(e))
    ensures TermOf(e) > st.servers[e.i].currentTerm ==>
      Joined(st'.servers[e.i], TermOf(e)) && (!e.DeliverVoteRequest? ==> st'.servers[e.i].voteFor == NONE)
  {
    hide Merge, CommitScan, Backtrack, MakeAppend, RunStart, UpToDate;
  }

  /** In every calm run a peer that heeds a message is afterwards in the larger of its own term and the message's.  If the
      message's term was larger, it follows that term, without a vote unless the message asked for one. */
  lemma LearnsTerm(n: nat, states: seq<State>, events: seq<Event>, k: nat)
    requires CalmRun(n, states, events) && k < |events|
    requires events[k].i < |states[k].servers| && Heeds(states[k].servers[events[k].i], events[k])
    ensures
      var i, t := events[k].i, TermOf(events[k]);
      && i < |states[k + 1].servers| && states[k + 1].servers[i].currentTerm == Max(states[k].servers[i].currentTerm, t)
      && (t > states[k].servers[i].currentTerm ==>
            Joined(states[k + 1].servers[i], t) && (!events[k].DeliverVoteRequest? ==> states[k + 1].servers[i].voteFor == NONE))
  {
    hide Inv, Heeds, Joined;
    RunInv(n, states, events, k);
    assert Step(states[k], events[k], states[k + 1]);
    var e := events[k];
    if e.DeliverVoteAnswer? {
      VoteAnswered(states[k], e);
    }
    hide Step;
    HandlerLearns(states[k], e, states[k + 1]);
  }

  lemma VoteAnswered(st: State, e: Event)
    requires Inv(st) && e.DeliverVoteAnswer? && Enabled(st, e)
    ensures e.vote.voteGranted ==> e.vote.term == e.voteArgs.term
  {
    hide LogOk, LeaderOk, Certified, HistoryOk, VotersKept, PeersKept, CandidatesOk, CountsOk, CallsOk, ServersOk, LagsOk,
      SourcesOk, NextOk, Carries;
    assert MessageOk(st.h, st.servers, VoteAnswer(e.i, e.voter, e.voteArgs, e.vote));
  }
}
