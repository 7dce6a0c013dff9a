/** Every step keeps the invariant.  A handler is split into the moves it makes one after the
    other (catch up with a term, step down, vote, accept entries, ...), and each move keeps it.
 */
module RaftSteps {
  import opened RaftLog
  import opened RaftHandlers
  import opened RaftProtocol
  import opened RaftInvariant
  import opened RaftFrame

  ghost function With(st: State, i: nat, s: Server): State
    requires i < |st.servers|
  {
    st.(servers := st.servers[i := s])
  }

  // ---------------------------------------------------------------- moves without a trace

  // The move keeps the log, and a candidate either stays the candidate it was or gives up.
  ghost predicate Plain(s: Server, s': Server) {
    && s'.log == s.log && s.currentTerm <= s'.currentTerm
    && (s'.role == Candidate ==> s.role == Candidate && s'.currentTerm == s.currentTerm && s'.receivedVotes == s.receivedVotes)
  }

  lemma PlainCandidates(st: State, i: nat, s': Server)
    requires i < |st.servers| && Plain(st.servers[i], s')
    requires CandidatesOk(st.h, st.servers) && CountsOk(st) && CallsOk(st)
    ensures CandidatesOk(st.h, With(st, i, s').servers) && CountsOk(With(st, i, s')) && CallsOk(With(st, i, s'))
  {
  }

  lemma PlainLag(h: History, i: nat, s: Server, s': Server)
    requires LagOk(h, i, s) && Plain(s, s')
    ensures LagOk(h, i, s')
  {
  }

  // A peer that still leads with the same next indices.
  lemma SameNext(st: State, st': State, i: nat)
    requires Moves(st, st', i) && NextOk(st.h, st.servers)
    requires var s, s' := st.servers[i], st'.servers[i];
      s'.role == Leader ==> s.role == Leader && s'.nextIndex == s.nextIndex && s'.currentTerm == s.currentTerm
    ensures OwnNext(st'.h, st'.servers, i)
  {
    forall j: nat | j < |st'.servers| && j != i && st'.servers[i].role == Leader ensures NextAt(st'.h, st'.servers, i, j) {
      assert NextAt(st.h, st.servers, i, j);
    }
  }

  lemma PlainInv(st: State, i: nat, s': Server)
    requires Inv(st) && i < |st.servers| && Plain(st.servers[i], s')
    requires ServerOk(st.h, |st.servers|, i, s') && OwnNext(st.h, With(st, i, s').servers, i)
    ensures Inv(With(st, i, s'))
  {
    hide LogOk, Certified, LeaderOk, HistoryOk, VotersKept, PeersKept, CandidatesOk, CountsOk, CallsOk, NetworkOk,
      KeepsOwn, LagOk, PeerSources, StartSources, OwnNext;
    var st' := With(st, i, s');
    assert Moves(st, st', i);
    OwnKept(st, st', i);
    PlainCandidates(st, i, s');
    PlainLag(st.h, i, st.servers[i], s');
    SameLogSources(st, st', i);
    KeepsInv(st, st', i);
  }

  lemma CatchupInv(st: State, i: nat, term: int)
    requires Inv(st) && i < |st.servers|
    ensures Inv(With(st, i, Catchup(st.servers[i], term)))
  {
    hide LogOk, Certified, LeaderOk, HistoryOk, VotersKept, PeersKept, CandidatesOk, CountsOk, CallsOk, NetworkOk,
      LagOk, SourcesOk, NextOk;
    var s' := Catchup(st.servers[i], term);
    CatchupServer(st.h, |st.servers|, i, st.servers[i], term);
    assert Moves(st, With(st, i, s'), i);
    SameNext(st, With(st, i, s'), i);
    PlainInv(st, i, s');
  }

  lemma CatchupServer(h: History, n: nat, i: nat, s: Server, term: int)
    requires ServerOk(h, n, i, s)
    ensures ServerOk(h, n, i, Catchup(s, term))
  {
  }

  // Giving up a role: a candidate or leader meets another leader, a peer is killed or restarted.
  lemma StepDownInv(st: State, i: nat, s': Server)
    requires Inv(st) && i < |st.servers|
    requires s' == st.servers[i].(role := Follower) || s' == Kill(st.servers[i]) ||
             (|st.servers[i].log| > 0 && s' == Restart(st.servers[i]))
    ensures Inv(With(st, i, s'))
  {
    hide LogOk, HistoryOk, VotersKept, PeersKept, CandidatesOk, CountsOk, CallsOk, NetworkOk;
    assert ServerOk(st.h, |st.servers|, i, st.servers[i]);
    LogShape(st.h, st.servers[i].log);
    PlainInv(st, i, s');
  }

  lemma ApplyInv(st: State, i: nat)
    requires Inv(st) && i < |st.servers|
    ensures Inv(With(st, i, Apply(st.servers[i])))
  {
    hide LogOk, LeaderOk, Certified, HistoryOk, VotersKept, PeersKept, CandidatesOk, CountsOk, CallsOk, NetworkOk,
      LagOk, SourcesOk, NextOk;
    var s' := Apply(st.servers[i]);
    assert ServerOk(st.h, |st.servers|, i, st.servers[i]);
    SameLeader(st.h, |st.servers|, i, st.servers[i]);
    assert Moves(st, With(st, i, s'), i);
    SameNext(st, With(st, i, s'), i);
    PlainInv(st, i, s');
  }

  lemma SameLeader(h: History, n: nat, i: nat, s: Server)
    requires s.role == Leader ==> LeaderOk(h, n, i, s)
    ensures s.role == Leader ==> LeaderOk(h, n, i, Apply(s))
  {
  }

  lemma SendInv(st: State, m: Message)
    requires Inv(st) && MessageOk(st.h, st.servers, m)
    ensures Inv(st.(network := st.network + {m}))
  {
  }

  // ---------------------------------------------------------------- elections

  lemma AskHistory(st: State, i: nat)
    requires HistoryOk(st.h, |st.servers|) && i < |st.servers| && ServerOk(st.h, |st.servers|, i, st.servers[i])
    ensures var st' := Ask(st, i);
      Moves(st, st', i) && HistoryOk(st'.h, |st.servers|)
  {
    hide LogOk, Certified, LeaderOk;
    var st' := Ask(st, i);
    var s := st.servers[i];
    assert st'.h.votes == st.h.votes[(s.currentTerm + 1, i) := Vote(i, s.log)];
    assert Grows(st.h, st'.h);
    GrowHistory(st.h, st'.h, |st.servers|);
  }

  // New votes and acknowledgements keep the history well-formed when they are well-formed themselves.
  lemma GrowHistory(h: History, h': History, n: nat)
    requires Grows(h, h') && HistoryOk(h, n)
    requires h'.elections == h.elections && h'.leaderLog == h.leaderLog
    requires forall t, v :: (t, v) in h'.votes && (t, v) !in h.votes ==>
      v < n && LogOk(h, h'.votes[(t, v)].log)
    requires forall t, v :: (t, v) in h'.acks ==> v < n && t in h.elections && 0 <= h'.acks[(t, v)] < |h.leaderLog[t]|
    ensures HistoryOk(h', n)
  {
    forall t | t in h.elections ensures ElectionOk(h', n, t) {
      GrowElection(h, h', n, t);
    }
    forall t, v | (t, v) in h'.votes ensures LogOk(h', h'.votes[(t, v)].log) {
      GrowLogOk(h, h', h'.votes[(t, v)].log);
    }
  }

  // What a peer holds when it casts a vote of term `u`, up to an election of that term in which the vote did not count.
  lemma VoteKept(h: History, h': History, v: nat, log: seq<Entry>, u: int, t: int, k: int)
    requires Grows(h, h') && h'.elections == h.elections && InTerm(h, t, k) && Kept(h, log, t, k, u + 1)
    requires (u, v) in h'.votes && h'.votes[(u, v)].log == log && (u in h.elections ==> v !in h.elections[u].quorum)
    ensures KeptByVoter(h', t, k, v, u)
  {
    GrowKept(h, h', log, t, k, u + 1, u + 1);
    if u !in h.elections && Dropped(h', t, k, u + 1) {
      assert Dropped(h', t, k, u);
    }
  }

  // A vote that is not recorded yet was not counted.
  lemma NotCounted(h: History, n: nat, u: int, v: nat)
    requires HistoryOk(h, n) && (u, v) !in h.votes
    ensures u in h.elections ==> v !in h.elections[u].quorum
  {
    assert u in h.elections ==> ElectionOk(h, n, u);
  }

  lemma AskVotesWell(st: State, i: nat)
    requires Inv(st) && i < |st.servers| && Moves(st, Ask(st, i), i)
    ensures VotesWell(st.h, Ask(st, i).h, i)
  {
    hide LogOk, Certified, LeaderOk, VotersKept, CandidatesOk, CountsOk, CallsOk, NetworkOk, LagsOk, SourcesOk,
      NextOk, HistoryOk, KeptByVoter, Kept;
    var s, h' := st.servers[i], Ask(st, i).h;
    var u := s.currentTerm + 1;
    assert ServerOk(st.h, |st.servers|, i, s);
    NotCounted(st.h, |st.servers|, u, i);
    forall t, k | InTerm(h', t, k) && Acked(h', t, i, k) && !Ahead(s.log, u) && t < u ensures KeptByVoter(h', t, k, i, u) {
      assert InTerm(st.h, t, k) && Acked(st.h, t, i, k);
      GrowKept(st.h, st.h, s.log, t, k, Reach(s) + 1, u + 1);
      VoteKept(st.h, h', i, s.log, u, t, k);
    }
  }

  lemma AskLag(st: State, i: nat)
    requires i < |st.servers| && ServerOk(st.h, |st.servers|, i, st.servers[i]) && CandidatesOk(st.h, st.servers)
    requires LagOk(st.h, i, st.servers[i])
    ensures LagOk(Ask(st, i).h, i, Ask(st, i).servers[i])
  {
    hide LogOk, Certified, LeaderOk;
    var s, h' := st.servers[i], Ask(st, i).h;
    var u := s.currentTerm + 1;
    forall v: nat | (u, v) in h'.votes && h'.votes[(u, v)].candidate == i ensures v == i {
      assert !VoteOf(st.h, u, v, i);
    }
  }

  lemma AskInv(st: State, i: nat)
    requires Inv(st) && i < |st.servers|
    requires st.servers[i].role == Follower || st.servers[i].role == Candidate
    ensures Inv(Ask(st, i)) && Grows(st.h, Ask(st, i).h)
  {
    hide LogOk, Certified, LeaderOk, ElectionOk, VotersKept, PeersKept, NetworkOk, HistoryOk, KeepsOwn, VotesWell,
      Moves, LagOk, PeerSources, StartSources, CandidatesOk, CallsOk, CountsOk, NextOk;
    var s, st' := st.servers[i], Ask(st, i);
    AskHistory(st, i);
    AskVotesWell(st, i);
    AskServer(st, i);
    AskCandidates(st, i);
    AskLag(st, i);
    OwnKept(st, st', i);
    SameLogSources(st, st', i);
    KeepsInv(st, st', i);
  }

  lemma AskServer(st: State, i: nat)
    requires Inv(st) && i < |st.servers| && Moves(st, Ask(st, i), i)
    ensures ServerOk(Ask(st, i).h, |st.servers|, i, Ask(st, i).servers[i])
  {
    var s, st' := st.servers[i], Ask(st, i);
    GrowLogOk(st.h, st'.h, s.log);
    GrowCertified(st.h, st'.h, |st.servers|, s.log, s.commitIndex);
  }

  lemma AskCandidates(st: State, i: nat)
    requires i < |st.servers| && ServerOk(st.h, |st.servers|, i, st.servers[i])
    requires CandidatesOk(st.h, st.servers) && CallsOk(st) && CountsOk(st)
    ensures var st' := Ask(st, i);
      && CandidatesOk(st'.h, st'.servers) && CountsOk(st') && CallsOk(st')
      && (forall m :: m in st'.network && m !in st.network ==> MessageOk(st'.h, st'.servers, m))
  {
    var s, st' := st.servers[i], Ask(st, i);
    var u := s.currentTerm + 1;
    assert (u, i) !in st.h.votes;
    assert st'.h.votes == st.h.votes[(u, i) := Vote(i, s.log)];
    forall t, v: nat, c: nat | c < |st.servers| && VoteOf(st'.h, t, v, c)
      ensures t <= st'.servers[c].currentTerm
      ensures st'.servers[c].role == Candidate && st'.servers[c].currentTerm == t ==> UpToDateLog(st'.servers[c].log, st'.h.votes[(t, v)].log)
    {
      if (t, v) != (u, i) {
        assert VoteOf(st.h, t, v, c);
      }
    }
    forall t, c, v | (t, c, v) in st'.voteCalls
      ensures v < |st.servers| && c < |st.servers| && t <= st'.servers[c].currentTerm
      ensures c == i && t == u ==> v != i
    {
    }
  }

  ghost function Granted(st: State, i: nat, c: int): State
    requires i < |st.servers|
  {
    var s := st.servers[i].(voteFor := c);
    With(st, i, s).(h := RecordVote(st.h, i, s))
  }

  // A peer casts its vote of the term for a candidate that asked with a recent enough log.
  lemma GrantInv(st: State, i: nat, a: RequestVoteArgs)
    requires Inv(st) && i < |st.servers| && VoteArgsOk(st.servers, a)
    requires |st.servers[i].log| > 0 && GrantsVote(st.servers[i], a) && st.servers[i].voteFor == NONE
    ensures Inv(Granted(st, i, a.candidateId)) && Grows(st.h, Granted(st, i, a.candidateId).h)
  {
    hide LogOk, Certified, LeaderOk, ElectionOk, VotersKept, PeersKept, NetworkOk, HistoryOk, KeepsOwn, VotesWell,
      Moves, LagOk, PeerSources, StartSources, NextOk;
    var s, st' := st.servers[i], Granted(st, i, a.candidateId);
    GrantHistory(st, i, a.candidateId);
    GrantVotesWell(st, i, a.candidateId);
    GrantServer(st, i, a.candidateId);
    GrantCandidates(st, i, a);
    GrantLag(st, i, a.candidateId);
    OwnKept(st, st', i);
    SameLogSources(st, st', i);
    SameNext(st, st', i);
    KeepsInv(st, st', i);
  }

  lemma GrantLag(st: State, i: nat, c: int)
    requires i < |st.servers| && ServerOk(st.h, |st.servers|, i, st.servers[i]) && st.servers[i].voteFor == NONE && c >= 0
    requires LagOk(st.h, i, st.servers[i])
    ensures LagOk(Granted(st, i, c).h, i, Granted(st, i, c).servers[i])
  {
    hide LogOk, Certified, LeaderOk;
  }

  lemma GrantHistory(st: State, i: nat, c: int)
    requires HistoryOk(st.h, |st.servers|) && i < |st.servers| && ServerOk(st.h, |st.servers|, i, st.servers[i])
    requires st.servers[i].voteFor == NONE && 0 <= c < |st.servers|
    ensures Moves(st, Granted(st, i, c), i) && HistoryOk(Granted(st, i, c).h, |st.servers|)
  {
    hide LogOk, Certified, LeaderOk;
    GrowHistory(st.h, Granted(st, i, c).h, |st.servers|);
  }

  lemma GrantVotesWell(st: State, i: nat, c: int)
    requires Inv(st) && i < |st.servers| && st.servers[i].voteFor == NONE && 0 <= c < |st.servers|
    requires Moves(st, Granted(st, i, c), i)
    ensures VotesWell(st.h, Granted(st, i, c).h, i)
  {
    hide LogOk, Certified, LeaderOk, VotersKept, CandidatesOk, CountsOk, CallsOk, NetworkOk, LagsOk, SourcesOk,
      NextOk, HistoryOk, KeptByVoter, Kept;
    var s, h' := st.servers[i], Granted(st, i, c).h;
    var u := s.currentTerm;
    assert ServerOk(st.h, |st.servers|, i, s);
    NotCounted(st.h, |st.servers|, u, i);
    forall t, k | InTerm(h', t, k) && Acked(h', t, i, k) && !Ahead(s.log, u) && t < u ensures KeptByVoter(h', t, k, i, u) {
      assert InTerm(st.h, t, k) && Acked(st.h, t, i, k);
      VoteKept(st.h, h', i, s.log, u, t, k);
    }
  }

  lemma GrantServer(st: State, i: nat, c: int)
    requires Inv(st) && i < |st.servers| && st.servers[i].voteFor == NONE && 0 <= c < |st.servers|
    requires Moves(st, Granted(st, i, c), i)
    ensures ServerOk(Granted(st, i, c).h, |st.servers|, i, Granted(st, i, c).servers[i])
  {
    hide LogOk, Certified, HistoryOk, VotersKept, PeersKept, CandidatesOk, CountsOk, CallsOk, NetworkOk;
    var s, h' := st.servers[i], Granted(st, i, c).h;
    GrowLogOk(st.h, h', s.log);
    GrowCertified(st.h, h', |st.servers|, s.log, s.commitIndex);
  }

  lemma GrantCandidates(st: State, i: nat, a: RequestVoteArgs)
    requires i < |st.servers| && ServerOk(st.h, |st.servers|, i, st.servers[i]) && VoteArgsOk(st.servers, a)
    requires GrantsVote(st.servers[i], a) && st.servers[i].voteFor == NONE
    requires CandidatesOk(st.h, st.servers) && CallsOk(st) && CountsOk(st)
    requires forall c :: 0 <= c < |st.servers| ==> |st.servers[c].log| > 0
    ensures var st' := Granted(st, i, a.candidateId);
      CandidatesOk(st'.h, st'.servers) && CountsOk(st') && CallsOk(st')
  {
    var s, st' := st.servers[i], Granted(st, i, a.candidateId);
    forall t, v: nat, c: nat | c < |st.servers| && VoteOf(st'.h, t, v, c)
      ensures t <= st'.servers[c].currentTerm
      ensures st'.servers[c].role == Candidate && st'.servers[c].currentTerm == t ==> UpToDateLog(st'.servers[c].log, st'.h.votes[(t, v)].log)
    {
      if (t, v) != (s.currentTerm, i) {
        assert VoteOf(st.h, t, v, c);
      }
    }
  }

  lemma AnswerInv(st: State, i: nat, a: RequestVoteArgs)
    requires Inv(st) && i < |st.servers| && VoteArgsOk(st.servers, a)
    ensures Inv(Answer(st, i, a)) && Grows(st.h, Answer(st, i, a).h)
  {
    hide LogOk, Certified, LeaderOk, VotersKept, PeersKept, NetworkOk, HistoryOk, CandidatesOk, CountsOk, CallsOk;
    var s := st.servers[i];
    assert ServerOk(st.h, |st.servers|, i, s);
    if s.role == Dead {
      SendInv(st, VoteAnswer(a.candidateId, i, a, RequestVoteReply(0, false)));
      assert st.servers[i := s] == st.servers;
      assert RecordVote(st.h, i, s) == st.h;
    } else {
      var s1 := Catchup(s, a.term);
      var st1 := With(st, i, s1);
      CatchupInv(st, i, a.term);
      assert ServerOk(st1.h, |st1.servers|, i, st1.servers[i]);
      if GrantsVote(s1, a) && s1.voteFor == NONE {
        GrantInv(st1, i, a);
        var st2 := Granted(st1, i, a.candidateId);
        SendInv(st2, VoteAnswer(a.candidateId, i, a, RequestVoteReply(s1.currentTerm, true)));
        assert st2.servers == st.servers[i := s1.(voteFor := a.candidateId)];
      } else {
        assert RecordVote(st.h, i, s1) == st.h;
        SendInv(st1, VoteAnswer(a.candidateId, i, a, RequestVoteReply(s1.currentTerm, GrantsVote(s1, a))));
      }
    }
  }

  // A vote call that returned is not answered again.
  lemma DropCallInv(st: State, call: (int, nat, nat))
    requires Inv(st)
    ensures Inv(st.(voteCalls := st.voteCalls - {call}))
  {
    hide LogOk, ServersOk, VotersKept, PeersKept, NetworkOk, HistoryOk, CandidatesOk;
  }

  ghost function CountedVote(st: State, i: nat, voter: nat): State
    requires i < |st.servers|
  {
    var s := st.servers[i];
    State(st.servers[i := s.(receivedVotes := s.receivedVotes + 1)], st.network,
          st.voteCalls - {(s.currentTerm, i, voter)}, RecordCount(st.h, i, s.currentTerm, voter))
  }

  lemma CountVoteInv(st: State, i: nat, voter: nat)
    requires Inv(st) && i < |st.servers| && st.servers[i].role == Candidate
    requires (st.servers[i].currentTerm, i, voter) in st.voteCalls
    requires VoteOf(st.h, st.servers[i].currentTerm, voter, i)
    ensures Inv(CountedVote(st, i, voter)) && Grows(st.h, CountedVote(st, i, voter).h)
  {
    hide LogOk, LeaderOk, Certified, VotersKept, NetworkOk, HistoryOk, PeersKept, CandidatesOk, CountsOk, CallsOk,
      KeepsOwn, LagOk, PeerSources, StartSources, NextOk;
    var st' := CountedVote(st, i, voter);
    CountHistory(st, i, voter);
    CountServer(st, i, voter);
    CountCounts(st, i, voter);
    CountLag(st, i, voter);
    OwnKept(st, st', i);
    SameLogSources(st, st', i);
    KeepsInv(st, st', i);
  }

  lemma CountLag(st: State, i: nat, voter: nat)
    requires i < |st.servers| && LagOk(st.h, i, st.servers[i])
    ensures LagOk(CountedVote(st, i, voter).h, i, CountedVote(st, i, voter).servers[i])
  {
  }

  lemma CountCounts(st: State, i: nat, voter: nat)
    requires i < |st.servers| && st.servers[i].role == Candidate
    requires CandidatesOk(st.h, st.servers) && CountsOk(st) && CallsOk(st)
    requires (st.servers[i].currentTerm, i, voter) in st.voteCalls
    requires VoteOf(st.h, st.servers[i].currentTerm, voter, i)
    ensures var st' := CountedVote(st, i, voter);
      CandidatesOk(st'.h, st'.servers) && CountsOk(st') && CallsOk(st')
  {
  }

  lemma CountHistory(st: State, i: nat, voter: nat)
    requires HistoryOk(st.h, |st.servers|) && i < |st.servers|
    ensures Moves(st, CountedVote(st, i, voter), i) && HistoryOk(CountedVote(st, i, voter).h, |st.servers|)
  {
    GrowHistory(st.h, CountedVote(st, i, voter).h, |st.servers|);
  }

  lemma CountServer(st: State, i: nat, voter: nat)
    requires i < |st.servers| && ServerOk(st.h, |st.servers|, i, st.servers[i])
    requires Moves(st, CountedVote(st, i, voter), i)
    ensures ServerOk(CountedVote(st, i, voter).h, |st.servers|, i, CountedVote(st, i, voter).servers[i])
  {
    var s, h' := st.servers[i], CountedVote(st, i, voter).h;
    GrowLogOk(st.h, h', s.log);
    GrowCertified(st.h, h', |st.servers|, s.log, s.commitIndex);
  }

  ghost function Elected(st: State, i: nat): State
    requires i < |st.servers| && |st.servers[i].log| > 0
  {
    var s := BecomeLeader(st.servers[i]);
    With(st, i, s).(h := RecordLeader(st.h, i, s))
  }

  // Election safety: a candidate with a majority is the first to win its term.
  lemma FirstToWin(st: State, i: nat)
    requires Inv(st) && i < |st.servers| && st.servers[i].role == Candidate
    requires st.servers[i].receivedVotes * 2 >= |st.servers| + 1
    ensures st.servers[i].currentTerm !in st.h.elections
  {
    hide LogOk, Certified, LeaderOk, VotersKept, PeersKept, NetworkOk, CandidatesOk, CallsOk;
    var t := st.servers[i].currentTerm;
    assert ServerOk(st.h, |st.servers|, i, st.servers[i]);
    if t in st.h.elections {
      assert ElectionOk(st.h, |st.servers|, t);
      var v := QuorumsMeet(|st.servers|, st.h.counted[(t, i)], st.h.elections[t].quorum);
    }
  }

  lemma ElectInv(st: State, i: nat)
    requires Inv(st) && i < |st.servers| && |st.servers[i].log| > 0 && st.servers[i].role == Candidate
    requires st.servers[i].receivedVotes * 2 >= |st.servers| + 1
    ensures Inv(Elected(st, i)) && Grows(st.h, Elected(st, i).h)
  {
    hide LogOk, LeaderOk, Certified, VotersKept, NetworkOk, HistoryOk, PeersKept, CandidatesOk, CountsOk, CallsOk,
      KeepsOwn, LagOk, PeerSources, StartSources, NextOk, TermsBelow, OwnNext;
    var st' := Elected(st, i);
    FirstToWin(st, i);
    NotAhead(st, i);
    ElectMoves(st, i);
    ElectHistory(st, i);
    ElectServer(st, i);
    ElectCandidates(st, i);
    ElectNext(st, i);
    ElectLag(st, i);
    ElectSources(st, i);
    OwnKept(st, st', i);
    SameLogSources(st, st', i);
    KeepsInv(st, st', i);
  }

  // A candidate that is ahead of its term has no vote but its own, and it is not alone.
  lemma AheadLoses(st: State, i: nat)
    requires Inv(st) && i < |st.servers| && st.servers[i].role == Candidate
    requires Ahead(st.servers[i].log, st.servers[i].currentTerm)
    ensures st.servers[i].receivedVotes * 2 < |st.servers| + 1
  {
    hide LogOk, Certified, LeaderOk, VotersKept, PeersKept, NetworkOk, CandidatesOk, CallsOk, SourcesOk, NextOk;
    var n, s, h := |st.servers|, st.servers[i], st.h;
    assert ServerOk(h, n, i, s) && LagOk(h, i, s) && ElectionOk(h, n, LastTerm(s.log));
    assert forall v :: v in h.counted[(s.currentTerm, i)] ==> v == i;
    SubsetSize(h.counted[(s.currentTerm, i)], {i});
    var q := h.elections[LastTerm(s.log)].quorum;
    var x := QuorumsMeet(n, q, q);
    assert x != i;
  }

  lemma NotAhead(st: State, i: nat)
    requires Inv(st) && i < |st.servers| && st.servers[i].role == Candidate && st.servers[i].currentTerm !in st.h.elections
    requires st.servers[i].receivedVotes * 2 >= |st.servers| + 1
    ensures TermsBelow(st.servers[i].log, st.servers[i].currentTerm)
  {
    hide Certified, LeaderOk, VotersKept, PeersKept, NetworkOk, CandidatesOk, CallsOk, CountsOk, LagsOk, SourcesOk,
      NextOk;
    var n, s := |st.servers|, st.servers[i];
    assert ServerOk(st.h, n, i, s);
    if Ahead(s.log, s.currentTerm) {
      assert false by { AheadLoses(st, i); }
    }
    forall k | 0 <= k < |s.log| ensures s.log[k].term < s.currentTerm {
      LastTermLargest(st.h, n, s.log, k);
    }
  }

  lemma ElectLag(st: State, i: nat)
    requires i < |st.servers| && |st.servers[i].log| > 0 && TermsBelow(st.servers[i].log, st.servers[i].currentTerm)
    ensures LagOk(Elected(st, i).h, i, Elected(st, i).servers[i])
  {
  }

  lemma ElectNext(st: State, i: nat)
    requires i < |st.servers| && ServerOk(st.h, |st.servers|, i, st.servers[i])
    ensures OwnNext(Elected(st, i).h, Elected(st, i).servers, i)
  {
    hide Certified, LeaderOk;
    LogShape(st.h, st.servers[i].log);
  }

  lemma ElectSources(st: State, i: nat)
    requires i < |st.servers| && ServerOk(st.h, |st.servers|, i, st.servers[i]) && PeerSources(st.h, i, st.servers[i])
    requires Moves(st, Elected(st, i), i) && st.servers[i].currentTerm !in st.h.elections
    ensures NewSources(st.h, Elected(st, i).h)
  {
    hide Certified, LeaderOk, LogOk;
    var s, h' := st.servers[i], Elected(st, i).h;
    var u := s.currentTerm;
    forall t, k | 0 <= k < |s.log| && s.log[k].term < t < u ensures Source(h', t, s.log[k].term, u) {
      if Lacks(st.h, t, i, s.log[k].term) {
        QuietSource(st, Elected(st, i), i, t, s.log[k].term, u, u);
      } else {
        assert u in h'.elections && !Lacks(h', t, h'.elections[u].leader, s.log[k].term);
      }
    }
  }

  lemma ElectMoves(st: State, i: nat)
    requires HistoryOk(st.h, |st.servers|) && i < |st.servers| && |st.servers[i].log| > 0
    requires st.servers[i].currentTerm !in st.h.elections
    ensures Moves(st, Elected(st, i), i)
  {
  }

  lemma ElectHistory(st: State, i: nat)
    requires HistoryOk(st.h, |st.servers|) && i < |st.servers| && ServerOk(st.h, |st.servers|, i, st.servers[i])
    requires CountsOk(st) && CandidatesOk(st.h, st.servers) && Moves(st, Elected(st, i), i)
    requires st.servers[i].role == Candidate && st.servers[i].currentTerm !in st.h.elections
    requires st.servers[i].receivedVotes * 2 >= |st.servers| + 1 && TermsBelow(st.servers[i].log, st.servers[i].currentTerm)
    ensures HistoryOk(Elected(st, i).h, |st.servers|)
  {
    hide Certified, LeaderOk, LogOk, CountsOk, CandidatesOk;
    var n, s, h' := |st.servers|, st.servers[i], Elected(st, i).h;
    forall u | u in h'.elections ensures ElectionOk(h', n, u) {
      if u == s.currentTerm {
        NewElection(st, i);
      } else {
        GrowElection(st.h, h', n, u);
      }
    }
    forall u, v | (u, v) in h'.votes ensures LogOk(h', h'.votes[(u, v)].log) {
      GrowLogOk(st.h, h', st.h.votes[(u, v)].log);
    }
  }

  lemma NewElection(st: State, i: nat)
    requires i < |st.servers| && ServerOk(st.h, |st.servers|, i, st.servers[i])
    requires CountsOk(st) && CandidatesOk(st.h, st.servers) && Grows(st.h, Elected(st, i).h)
    requires st.servers[i].role == Candidate && st.servers[i].receivedVotes * 2 >= |st.servers| + 1
    requires TermsBelow(st.servers[i].log, st.servers[i].currentTerm)
    ensures st.servers[i].currentTerm in Elected(st, i).h.elections
    ensures ElectionOk(Elected(st, i).h, |st.servers|, st.servers[i].currentTerm)
  {
    hide Certified, LeaderOk, LogOk;
    var s, h' := st.servers[i], Elected(st, i).h;
    LogStart(st.h, s.log);
    GrowLogOk(st.h, h', s.log);
    assert forall v :: v in st.h.counted[(s.currentTerm, i)] ==> VoteOf(st.h, s.currentTerm, v, i);
  }

  lemma ElectServer(st: State, i: nat)
    requires i < |st.servers| && ServerOk(st.h, |st.servers|, i, st.servers[i])
    requires Moves(st, Elected(st, i), i) && st.servers[i].currentTerm !in st.h.elections
    ensures ServerOk(Elected(st, i).h, |st.servers|, i, Elected(st, i).servers[i])
  {
    var s, h' := st.servers[i], Elected(st, i).h;
    GrowLogOk(st.h, h', s.log);
    GrowCertified(st.h, h', |st.servers|, s.log, s.commitIndex);
  }

  lemma ElectCandidates(st: State, i: nat)
    requires i < |st.servers| && |st.servers[i].log| > 0
    requires CandidatesOk(st.h, st.servers) && CountsOk(st) && CallsOk(st)
    ensures var st' := Elected(st, i);
      CandidatesOk(st'.h, st'.servers) && CountsOk(st') && CallsOk(st')
  {
  }

  lemma CountInv(st: State, i: nat, voter: nat, a: RequestVoteArgs, r: RequestVoteReply)
    requires Inv(st) && i < |st.servers| && |st.servers[i].log| > 0
    requires (a.term, i, voter) in st.voteCalls && MessageOk(st.h, st.servers, VoteAnswer(i, voter, a, r))
    ensures Inv(Count(st, i, voter, a, r)) && Grows(st.h, Count(st, i, voter, a, r).h)
  {
    hide LogOk, LeaderOk, Certified, VotersKept, NetworkOk, HistoryOk, PeersKept, CandidatesOk, CountsOk, CallsOk, Inv;
    var s := st.servers[i];
    var st' := Count(st, i, voter, a, r);
    var call := (a.term, i, voter);
    if s.role == Candidate && s.currentTerm == a.term && r.voteGranted {
      CountVoteInv(st, i, voter);
      var st1 := CountedVote(st, i, voter);
      if st1.servers[i].receivedVotes * 2 >= |st.servers| + 1 {
        ElectInv(st1, i);
        assert st' == Elected(st1, i);
      } else {
        assert st' == st1;
      }
    } else {
      var s1 := VoteReply(s, |st.servers|, a, r);
      DropCallInv(st, call);
      var st1 := st.(voteCalls := st.voteCalls - {call});
      if s1 == s {
        assert st'.servers == st.servers;
      } else {
        CatchupInv(st1, i, r.term);
      }
    }
  }
}
