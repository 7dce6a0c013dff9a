/** Runs that can be put together step by step, and the elections in them: a cluster can elect a leader if and only if it
    has at least two peers. */
module RaftElections {
  import opened RaftLog
  import opened RaftHandlers
  import opened RaftProtocol

  // ---------------------------------------------------------------- runs step by step

  ghost predicate Ends(n: nat, st: State) {
    exists states, events :: Run(n, states, events) && states[|events|] == st
  }

  ghost predicate Reached(n: nat, st: State) {
    |st.servers| == n && Ends(n, st)
  }

  // `st'` comes later in the run; messages and elections stay.
  ghost predicate Onward(n: nat, st: State, st': State) {
    && Reached(n, st') && st.network <= st'.network
    && forall t :: t in st.h.elections ==> t in st'.h.elections && st'.h.elections[t] == st.h.elections[t]
  }

  lemma Begins(n: nat) returns (st: State)
    ensures Reached(n, st) && st.h.elections == map[]
    ensures forall j :: 0 <= j < n ==> st.servers[j] == FreshServer(n, j)
  {
    st := Init(n);
    assert Run(n, [st], []);
  }

  lemma Extend(n: nat, st: State, e: Event)
    requires Reached(n, st) && Enabled(st, e) && InRange(st, e)
    ensures Reached(n, Exec(st, e))
  {
    hide Enabled, InRange, Exec;
    var states, events :| Run(n, states, events) && states[|events|] == st;
    var st' := Exec(st, e);
    var states', events' := states + [st'], events + [e];
    forall k | 0 <= k < |events'| ensures Step(states'[k], events'[k], states'[k + 1]) {
      if k < |events| {
        assert Step(states[k], events[k], states[k + 1]);
      }
    }
    assert Run(n, states', events');
    assert |st'.servers| == n by { SameSize(st, e); }
  }

  lemma SameSize(st: State, e: Event)
    requires InRange(st, e)
    ensures |Exec(st, e).servers| == |st.servers|
  {
  }

  // ---------------------------------------------------------------- an election

  // The peer that grants its vote.
  ghost function Voted(s: Server, a: RequestVoteArgs): Server {
    Catchup(s, a.term).(voteFor := a.candidateId)
  }

  ghost predicate WouldVote(s: Server, a: RequestVoteArgs) {
    && Contiguous(s.log) && s.role != Dead && Catchup(s, a.term).voteFor == NONE
    && GrantsVote(Catchup(s, a.term), a)
  }

  // The votes that make a leader.
  function Quorum(n: nat): nat {
    (n + 2) / 2
  }

  // A candidate that has counted its own vote and `c` more.
  ghost function Counted(s: Server, n: nat, c: nat): Server
    requires |s.log| > 0
  {
    if 1 + c < Quorum(n) then s.(receivedVotes := 1 + c) else BecomeLeader(s.(receivedVotes := Quorum(n)))
  }

  lemma CallVotes(n: nat, st: State, i: nat) returns (st': State)
    requires Reached(n, st) && i < n && st.servers[i].role == Follower && Contiguous(st.servers[i].log)
    ensures Onward(n, st, st') && st'.servers == st.servers[i := StartElection(st.servers[i]).0]
    ensures forall j: nat :: j < n && j != i ==>
      && VoteRequest(j, StartElection(st.servers[i]).1) in st'.network
      && (st.servers[i].currentTerm + 1, i, j) in st'.voteCalls
    ensures st'.h.elections == st.h.elections
  {
    Extend(n, st, Timeout(i));
    st' := Exec(st, Timeout(i));
  }

  lemma GiveVote(n: nat, st: State, i: nat, v: nat, a: RequestVoteArgs) returns (st': State)
    requires Reached(n, st) && v < n && v != i && a.candidateId == i
    requires VoteRequest(v, a) in st.network && WouldVote(st.servers[v], a)
    ensures Onward(n, st, st') && st'.servers == st.servers[v := Voted(st.servers[v], a)]
    ensures VoteAnswer(i, v, a, RequestVoteReply(a.term, true)) in st'.network
    ensures st'.voteCalls == st.voteCalls && st'.h.elections == st.h.elections
  {
    Extend(n, st, DeliverVoteRequest(v, a));
    st' := Exec(st, DeliverVoteRequest(v, a));
  }

  // Those in `voters` give their votes.
  ghost predicate HaveVoted(st: State, st': State, n: nat, voters: set<nat>, i: nat, a: RequestVoteArgs)
    requires |st.servers| == |st'.servers| == n
  {
    && (forall j :: 0 <= j < n ==> st'.servers[j] == if j in voters then Voted(st.servers[j], a) else st.servers[j])
    && (forall v :: v in voters ==> VoteAnswer(i, v, a, RequestVoteReply(a.term, true)) in st'.network)
  }

  lemma {:induction false} GiveVotes(n: nat, st: State, i: nat, voters: set<nat>, a: RequestVoteArgs) returns (st': State)
    requires Reached(n, st) && a.candidateId == i && forall v :: v in voters ==> v < n && v != i
    requires forall v :: v in voters ==> VoteRequest(v, a) in st.network && WouldVote(st.servers[v], a)
    ensures Onward(n, st, st') && HaveVoted(st, st', n, voters, i, a)
    ensures st'.voteCalls == st.voteCalls && st'.h.elections == st.h.elections
    decreases |voters|
  {
    hide Ends, WouldVote, Voted;
    st' := st;
    if voters != {} {
      var v :| v in voters;
      var st1 := GiveVotes(n, st, i, voters - {v}, a);
      st' := GiveVote(n, st1, i, v, a);
      assert forall w :: w in voters ==> w == v || w in voters - {v};
    }
  }

  lemma CountVote(n: nat, st: State, i: nat, v: nat, a: RequestVoteArgs, s: Server, c: nat) returns (st': State)
    requires Reached(n, st) && i < n && Contiguous(s.log) && s.role == Candidate && s.currentTerm == a.term
    requires st.servers[i] == Counted(s, n, c) && (a.term in st.h.elections <==> 1 + c >= Quorum(n))
    requires VoteAnswer(i, v, a, RequestVoteReply(a.term, true)) in st.network && (a.term, i, v) in st.voteCalls
    ensures Onward(n, st, st') && st'.servers == st.servers[i := Counted(s, n, c + 1)]
    ensures st.voteCalls - {(a.term, i, v)} <= st'.voteCalls
    ensures a.term in st'.h.elections <==> 2 + c >= Quorum(n)
    ensures forall t :: t in st'.h.elections ==> t in st.h.elections || t == a.term
    ensures 1 + c < Quorum(n) && a.term in st'.h.elections ==> st'.h.elections[a.term].leader == i
  {
    hide Ends;
    var e := DeliverVoteAnswer(i, v, a, RequestVoteReply(a.term, true));
    assert (1 + c + 1) * 2 >= n + 1 <==> 2 + c >= Quorum(n);
    Extend(n, st, e);
    st' := Exec(st, e);
  }

  lemma {:induction false} CountVotes(n: nat, st: State, i: nat, voters: set<nat>, a: RequestVoteArgs, s: Server) returns (st': State)
    requires Reached(n, st) && 1 < n && i < n && Contiguous(s.log) && s.role == Candidate && s.currentTerm == a.term
    requires st.servers[i] == Counted(s, n, 0) && a.term !in st.h.elections
    requires forall v :: v in voters ==>
      VoteAnswer(i, v, a, RequestVoteReply(a.term, true)) in st.network && (a.term, i, v) in st.voteCalls
    ensures Onward(n, st, st') && st'.servers == st.servers[i := Counted(s, n, |voters|)]
    ensures forall v :: (a.term, i, v) in st.voteCalls && v !in voters ==> (a.term, i, v) in st'.voteCalls
    ensures a.term in st'.h.elections <==> 1 + |voters| >= Quorum(n)
    ensures forall t :: t in st'.h.elections ==> t in st.h.elections || t == a.term
    ensures a.term in st'.h.elections ==> st'.h.elections[a.term].leader == i
    decreases |voters|
  {
    hide Ends, Counted, Quorum;
    st' := st;
    if voters == {} {
      assert 1 < Quorum(n) by { AtLeastTwo(n); }
    } else {
      var v :| v in voters;
      var rest := voters - {v};
      var st1 := CountVotes(n, st, i, rest, a, s);
      st' := CountVote(n, st1, i, v, a, s, |rest|);
      assert |voters| == |rest| + 1;
    }
  }

  lemma AtLeastTwo(n: nat)
    requires 1 < n
    ensures 1 < Quorum(n) <= n && 2 * (Quorum(n) - 1) <= n
  {
  }

  ghost function Winner(s: Server, n: nat): Server
    requires |s.log| > 0
  {
    BecomeLeader(StartElection(s).0.(receivedVotes := Quorum(n)))
  }

  /** Peer `i` asks for votes, and those in `voters`, who with it are a majority, grant them. */
  lemma Wins(n: nat, st: State, i: nat, voters: set<nat>) returns (st': State)
    requires Reached(n, st) && 1 < n && i < n && (forall v :: v in voters ==> v < n && v != i) && 1 + |voters| >= Quorum(n)
    requires st.servers[i].role == Follower && st.servers[i].me == i && Contiguous(st.servers[i].log)
    requires forall v :: v in voters ==> WouldVote(st.servers[v], StartElection(st.servers[i]).1)
    requires st.servers[i].currentTerm + 1 !in st.h.elections
    ensures Onward(n, st, st')
    ensures
      var a := StartElection(st.servers[i]).1;
      && st'.servers[i] == Winner(st.servers[i], n)
      && (forall j :: 0 <= j < n && j != i ==>
            st'.servers[j] == if j in voters then Voted(st.servers[j], a) else st.servers[j])
      && (forall j: nat :: j < n && j != i ==> VoteRequest(j, a) in st'.network)
      && (forall t :: t in st'.h.elections <==> t in st.h.elections || t == a.term)
      && st'.h.elections[a.term].leader == i
  {
    hide Ends, WouldVote, Voted;
    var s, a := StartElection(st.servers[i]).0, StartElection(st.servers[i]).1;
    var st1 := CallVotes(n, st, i);
    var st2 := GiveVotes(n, st1, i, voters, a);
    AtLeastTwo(n);
    assert st2.servers[i] == s == Counted(s, n, 0);
    st' := CountVotes(n, st2, i, voters, a, s);
  }

  // ---------------------------------------------------------------- who can lead

  ghost predicate HasLeader(st: State) {
    exists i :: 0 <= i < |st.servers| && st.servers[i].role == Leader
  }

  // A lone peer never has a vote to count.
  lemma {:induction false} NobodyAsked(n: nat, states: seq<State>, events: seq<Event>, k: nat)
    requires n < 2 && Run(n, states, events) && k < |states|
    ensures |states[k].servers| == n && states[k].voteCalls == {} && !HasLeader(states[k])
  {
    hide Run;
    if k == 0 {
      assert states[0] == Init(n) by { FirstState(n, states, events); }
    } else {
      NobodyAsked(n, states, events, k - 1);
      assert Step(states[k - 1], events[k - 1], states[k]) by { NextState(n, states, events, k); }
      StaysAlone(states[k - 1], events[k - 1]);
    }
  }

  lemma FirstState(n: nat, states: seq<State>, events: seq<Event>)
    requires Run(n, states, events)
    ensures |states| == |events| + 1 && states[0] == Init(n)
  {
  }

  lemma NextState(n: nat, states: seq<State>, events: seq<Event>, k: nat)
    requires Run(n, states, events) && 0 < k < |states|
    ensures k - 1 < |events| && Step(states[k - 1], events[k - 1], states[k])
  {
    assert Step(states[k - 1], events[k - 1], states[k - 1 + 1]);
  }

  lemma StaysAlone(st: State, e: Event)
    requires |st.servers| < 2 && st.voteCalls == {} && !HasLeader(st) && Enabled(st, e) && InRange(st, e)
    ensures Exec(st, e).voteCalls == {} && !HasLeader(Exec(st, e)) && |Exec(st, e).servers| == |st.servers|
  {
    var s := st.servers[e.i];
    assert s.role != Leader;
    var st' := Exec(st, e);
    assert st'.servers == st.servers[e.i := st'.servers[e.i]];
  }

  /** A cluster of `n` peers can elect a leader if and only if it has at least two. */
  lemma CanLead(n: nat)
    ensures n >= 2 <==> exists states, events :: Run(n, states, events) && HasLeader(states[|events|])
  {
    if n >= 2 {
      var st := FirstLeader(n);
      var states, events :| Run(n, states, events) && states[|events|] == st;
      assert HasLeader(states[|events|]);
    } else {
      forall states, events | Run(n, states, events) ensures !HasLeader(states[|events|]) {
        NobodyAsked(n, states, events, |events|);
      }
    }
  }

  lemma FirstLeader(n: nat) returns (st: State)
    requires n >= 2
    ensures Reached(n, st) && HasLeader(st)
  {
    hide Ends;
    var st0 := Begins(n);
    var voters := Others(n, 0);
    AtLeastTwo(n);
    st := Wins(n, st0, 0, voters);
    assert st.servers[0].role == Leader;
  }

  ghost function Below(n: nat): (u: set<nat>)
    ensures |u| == n && forall j: nat :: j in u <==> j < n
  {
    if n == 0 then {} else Below(n - 1) + {n - 1}
  }

  // Everyone but peer `i`.
  ghost function Others(n: nat, i: nat): (u: set<nat>)
    requires i < n
    ensures |u| == n - 1 && forall j: nat :: j in u <==> j < n && j != i
  {
    Below(n) - {i}
  }
}
