/** Why the captured term matters: if a replication round may send after its term has passed, then in every cluster of at
    least five peers some run commits two different entries at one index.  In smaller clusters none does. */
module RaftUntimely {
  import opened RaftLog
  import opened RaftHandlers
  import opened RaftProtocol
  import opened RaftInvariant
  import opened RaftSafety
  import opened RaftElections

  // ---------------------------------------------------------------- steps

  // Peer `j` refuses its vote and only learns the term.
  lemma Learns(n: nat, st: State, j: nat, a: RequestVoteArgs) returns (st': State)
    requires Reached(n, st) && j < n && VoteRequest(j, a) in st.network && Contiguous(st.servers[j].log)
    requires st.servers[j].role != Dead && !GrantsVote(Catchup(st.servers[j], a.term), a)
    ensures Onward(n, st, st') && st'.servers == st.servers[j := Catchup(st.servers[j], a.term)]
    ensures st'.h.elections == st.h.elections
  {
    hide Ends;
    Extend(n, st, DeliverVoteRequest(j, a));
    st' := Exec(st, DeliverVoteRequest(j, a));
  }

  lemma Proposes(n: nat, st: State, i: nat, c: Command) returns (st': State)
    requires Reached(n, st) && i < n && Contiguous(st.servers[i].log) && st.servers[i].role == Leader
    ensures Onward(n, st, st') && st'.servers == st.servers[i := Start(st.servers[i], c)]
    ensures st'.h.elections == st.h.elections
  {
    hide Ends;
    Extend(n, st, ClientRequest(i, c));
    st' := Exec(st, ClientRequest(i, c));
  }

  lemma Sends(n: nat, st: State, i: nat, j: nat, captured: int) returns (st': State)
    requires Reached(n, st) && i < n && j < n && j != i && st.servers[i].role == Leader && CanSend(st.servers[i], j)
    requires captured in st.h.elections && st.h.elections[captured].leader == i
    ensures Onward(n, st, st') && st'.servers == st.servers && st'.h.elections == st.h.elections
    ensures AppendRequest(j, MakeAppend(st.servers[i], j, captured)) in st'.network
  {
    hide Ends;
    Extend(n, st, SendAppend(i, j, captured));
    st' := Exec(st, SendAppend(i, j, captured));
  }

  lemma Receives(n: nat, st: State, j: nat, a: AppendArgs) returns (st': State)
    requires Reached(n, st) && j < n && AppendRequest(j, a) in st.network && Contiguous(st.servers[j].log) && a.leaderId >= 0
    ensures Onward(n, st, st') && st'.servers == st.servers[j := AppendEntries(st.servers[j], a).0]
    ensures st'.h.elections == st.h.elections
    ensures AppendAnswer(a.leaderId, j, a, AppendEntries(st.servers[j], a).1) in st'.network
  {
    hide Ends;
    Extend(n, st, DeliverAppend(j, a));
    st' := Exec(st, DeliverAppend(j, a));
  }

  lemma Hears(n: nat, st: State, i: nat, j: nat, a: AppendArgs, r: AppendReply) returns (st': State)
    requires Reached(n, st) && i < n && AppendAnswer(i, j, a, r) in st.network && Contiguous(st.servers[i].log)
    requires st.servers[i].role == Leader && st.servers[i].currentTerm == a.term && CanHandle(st.servers[i], j, a)
    ensures Onward(n, st, st') && st'.servers == st.servers[i := AppendResponse(st.servers[i], j, a, r).0]
    ensures st'.h.elections == st.h.elections
  {
    hide Ends;
    Extend(n, st, DeliverAppendAnswer(i, j, a, r));
    st' := Exec(st, DeliverAppendAnswer(i, j, a, r));
  }

  // ---------------------------------------------------------------- the peers

  const Z := Entry(Command("z"), 1, 1)
  const E := Entry(Command("e"), 2, 1)
  const F := Entry(Command("f"), 2, 2)
  const Y := Entry(Command("y"), 4, 2)

  const LOG4 := [MARKER, Z, Y]

  // A message of term 2 that is delivered last.
  const STALE := AppendArgs(2, 1, 0, 0, [E, F], 0)

  function Fill(n: nat, k: int): (r: seq<int>)
    ensures |r| == n && forall j :: 0 <= j < n ==> r[j] == k
  {
    seq(n, _ => k)
  }

  // A peer that never led.
  function Idle(n: nat, me: nat, term: int, vote: int, log: seq<Entry>): Server {
    Server(me, term, vote, log, Follower, 0, 0, Fill(n, 1), Fill(n, 0), 0)
  }

  // A peer that has won an election.
  function Chief(n: nat, me: nat, term: int, vote: int, log: seq<Entry>, role: Role, next: seq<int>): Server {
    Server(me, term, vote, log, role, 0, 0, next, Fill(n, 0), Quorum(n))
  }

  /** Peers 0 and 1 take turns as leaders of terms 1 to `term`; peers from 3 on have the same term and vote and no entries;
      `stale` says that the message of term 2 is on its way. */
  ghost predicate Stage(n: nat, st: State, p0: Server, p1: Server, p2: Server, rest: int, term: int, stale: bool) {
    && n >= 5 && Reached(n, st) && st.servers[0] == p0 && st.servers[1] == p1 && st.servers[2] == p2
    && RestIs(n, st, rest) && Led(st, term) && (stale ==> AppendRequest(2, STALE) in st.network)
  }

  function LeaderOf(t: int): int {
    if t <= 0 then NONE else if t % 2 == 1 then 0 else 1
  }

  ghost predicate Led(st: State, term: int) {
    && (forall t :: t in st.h.elections <==> 1 <= t <= term)
    && (forall t :: t in st.h.elections ==> st.h.elections[t].leader == LeaderOf(t))
  }

  lemma AllIdle(n: nat) returns (st: State)
    requires n >= 5
    ensures Stage(n, st, Idle(n, 0, 0, NONE, [MARKER]), Idle(n, 1, 0, NONE, [MARKER]), Idle(n, 2, 0, NONE, [MARKER]), 0, 0, false)
  {
    st := Begins(n);
    forall j: nat | j < n ensures st.servers[j] == Idle(n, j, 0, NONE, [MARKER]) {
      assert seq(n, _ => 1) == Fill(n, 1) && seq(n, _ => 0) == Fill(n, 0);
    }
  }

  // The peers from 3 on.
  ghost function Rest(n: nat): (u: set<nat>)
    requires n >= 3
    ensures |u| == n - 3 && forall j: nat :: j in u <==> 3 <= j < n
  {
    if n == 3 then {} else Rest(n - 1) + {n - 1}
  }

  // With one more they are a majority.
  lemma RestMajority(n: nat)
    requires n >= 5
    ensures 1 + |Rest(n)| >= Quorum(n)
  {
  }

  lemma WinnerIs(n: nat, s: Server, k: int)
    requires |s.nextIndex| == |s.matchIndex| == n && |s.log| > 0 && NextIndex(s.log) == k
    ensures Winner(s, n) ==
      s.(currentTerm := s.currentTerm + 1, role := Leader, voteFor := s.me, receivedVotes := Quorum(n),
         nextIndex := Fill(n, k), matchIndex := Fill(n, 0))
  {
    assert seq(n, _ => k) == Fill(n, k) && seq(n, _ => 0) == Fill(n, 0);
  }

  // An idle peer without entries votes for anyone in a later term.
  lemma RestVotes(n: nat, j: nat, term: int, a: RequestVoteArgs)
    requires a.term > term && a.lastLogTerm >= 0 && a.lastLogIndex >= 0
    ensures WouldVote(Idle(n, j, term, LeaderOf(term), [MARKER]), a)
    ensures Voted(Idle(n, j, term, LeaderOf(term), [MARKER]), a) == Idle(n, j, a.term, a.candidateId, [MARKER])
  {
  }

  ghost predicate RestIs(n: nat, st: State, term: int) {
    |st.servers| == n && forall j: nat :: 3 <= j < n ==> st.servers[j] == Idle(n, j, term, LeaderOf(term), [MARKER])
  }

  // Peer `i` wins the next term with the votes of the rest.
  lemma RestWins(n: nat, st: State, i: nat, rest: int, term: int) returns (st': State)
    requires n >= 5 && Reached(n, st) && Led(st, term) && RestIs(n, st, rest) && rest <= term && i < 3 && i == LeaderOf(term + 1)
    requires st.servers[i].role == Follower && st.servers[i].me == i && Contiguous(st.servers[i].log)
    requires st.servers[i].currentTerm == term >= 0 && LastTerm(st.servers[i].log) >= 0 && LastIndex(st.servers[i].log) >= 0
    ensures Onward(n, st, st') && Led(st', term + 1) && RestIs(n, st', term + 1)
    ensures st'.servers[i] == Winner(st.servers[i], n) && forall j: nat :: j < 3 && j != i ==> st'.servers[j] == st.servers[j]
    ensures forall j: nat :: j < n && j != i ==> VoteRequest(j, StartElection(st.servers[i]).1) in st'.network
  {
    hide Ends, WouldVote, Voted, Winner, LeaderOf, Led, Quorum, Rest, Idle;
    var a := StartElection(st.servers[i]).1;
    NotYet(st, term);
    forall j: nat | 3 <= j < n
      ensures WouldVote(st.servers[j], a) && Voted(st.servers[j], a) == Idle(n, j, term + 1, LeaderOf(term + 1), [MARKER])
    {
      RestVotes(n, j, rest, a);
    }
    RestMajority(n);
    st' := Wins(n, st, i, Rest(n));
    LedNext(st, st', term);
  }

  lemma NotYet(st: State, term: int)
    requires Led(st, term)
    ensures term + 1 !in st.h.elections
  {
  }

  lemma LedNext(st: State, st': State, term: int)
    requires Led(st, term) && term >= 0
    requires forall t :: t in st.h.elections ==> t in st'.h.elections && st'.h.elections[t] == st.h.elections[t]
    requires forall t :: t in st'.h.elections <==> t in st.h.elections || t == term + 1
    requires st'.h.elections[term + 1].leader == LeaderOf(term + 1)
    ensures Led(st', term + 1)
  {
    hide LeaderOf;
  }

  // What does not change a peer keeps the stage.
  lemma StageOn(n: nat, st: State, p0: Server, p1: Server, p2: Server, rest: int, term: int, stale: bool,
                st': State, q0: Server, q1: Server, q2: Server)
    requires Stage(n, st, p0, p1, p2, rest, term, stale) && Onward(n, st, st') && st'.h.elections == st.h.elections
    requires st'.servers == st.servers[0 := q0][1 := q1][2 := q2]
    ensures Stage(n, st', q0, q1, q2, rest, term, stale)
  {
    hide Ends;
  }

  // ---------------------------------------------------------------- terms 1 to 3

  function Zero1(n: nat, log: seq<Entry>): Server {
    Chief(n, 0, 1, 0, log, Leader, Fill(n, 1))
  }

  // Term 1: everybody votes for peer 0, which gives its entry to peer 2.
  lemma Term1Won(n: nat, st: State) returns (st': State)
    requires Stage(n, st, Idle(n, 0, 0, NONE, [MARKER]), Idle(n, 1, 0, NONE, [MARKER]), Idle(n, 2, 0, NONE, [MARKER]), 0, 0, false)
    ensures Stage(n, st', Zero1(n, [MARKER]), Idle(n, 1, 1, 0, [MARKER]), Idle(n, 2, 1, 0, [MARKER]), 1, 1, false)
  {
    hide Ends, WouldVote, Voted, Winner;
    var a := StartElection(st.servers[0]).1;
    forall j: nat | 1 <= j < n
      ensures WouldVote(st.servers[j], a) && Voted(st.servers[j], a) == Idle(n, j, 1, 0, [MARKER])
    {
      RestVotes(n, j, 0, a);
    }
    AtLeastTwo(n);
    WinnerIs(n, st.servers[0], 1);
    st' := Wins(n, st, 0, Others(n, 0));
  }

  lemma Term1(n: nat, st: State) returns (st': State)
    requires Stage(n, st, Zero1(n, [MARKER]), Idle(n, 1, 1, 0, [MARKER]), Idle(n, 2, 1, 0, [MARKER]), 1, 1, false)
    ensures Stage(n, st', Zero1(n, [MARKER, Z]), Idle(n, 1, 1, 0, [MARKER]), Idle(n, 2, 1, 0, [MARKER, Z]), 1, 1, false)
  {
    hide Ends, AppendEntries, MakeAppend;
    var p1 := Idle(n, 1, 1, 0, [MARKER]);
    var st1 := Proposes(n, st, 0, Command("z"));
    assert st1.servers[0] == Zero1(n, [MARKER, Z]);
    StageOn(n, st, st.servers[0], p1, st.servers[2], 1, 1, false, st1, Zero1(n, [MARKER, Z]), p1, st.servers[2]);
    First(n);
    var st2 := Sends(n, st1, 0, 2, 1);
    StageOn(n, st1, st1.servers[0], p1, st1.servers[2], 1, 1, false, st2, st1.servers[0], p1, st1.servers[2]);
    st' := Receives(n, st2, 2, AppendArgs(1, 0, 0, 0, [Z], 0));
    StageOn(n, st2, st2.servers[0], p1, st2.servers[2], 1, 1, false, st', st2.servers[0], p1, Idle(n, 2, 1, 0, [MARKER, Z]));
  }

  lemma First(n: nat)
    requires n >= 5
    ensures CanSend(Zero1(n, [MARKER, Z]), 2) && MakeAppend(Zero1(n, [MARKER, Z]), 2, 1) == AppendArgs(1, 0, 0, 0, [Z], 0)
    ensures AppendEntries(Idle(n, 2, 1, 0, [MARKER]), AppendArgs(1, 0, 0, 0, [Z], 0)).0 == Idle(n, 2, 1, 0, [MARKER, Z])
  {
    assert [MARKER, Z][1..] == [Z];
    assert [MARKER][..1] + [Z] == [MARKER, Z];
  }

  function Zero2(n: nat): Server {
    Chief(n, 0, 2, NONE, [MARKER, Z], Follower, Fill(n, 1))
  }

  function One2(n: nat, log: seq<Entry>): Server {
    Chief(n, 1, 2, 1, log, Leader, Fill(n, 1))
  }

  function Two2(n: nat): Server {
    Idle(n, 2, 2, NONE, [MARKER, Z])
  }

  // Term 2: peer 1 leads without the entry; peers 0 and 2 only learn the term.
  lemma Term2Won(n: nat, st: State) returns (st': State)
    requires Stage(n, st, Zero1(n, [MARKER, Z]), Idle(n, 1, 1, 0, [MARKER]), Idle(n, 2, 1, 0, [MARKER, Z]), 1, 1, false)
    ensures Stage(n, st', Zero2(n), One2(n, [MARKER]), Two2(n), 2, 2, false)
  {
    hide Ends, Winner;
    var a := RequestVoteArgs(2, 1, 0, 0);
    assert StartElection(st.servers[1]).1 == a;
    WinnerIs(n, st.servers[1], 1);
    var st1 := RestWins(n, st, 1, 1, 1);
    assert Stage(n, st1, st.servers[0], One2(n, [MARKER]), st.servers[2], 2, 2, false);
    var st2 := Learns(n, st1, 2, a);
    StageOn(n, st1, st1.servers[0], st1.servers[1], st1.servers[2], 2, 2, false, st2, st1.servers[0], st1.servers[1], Two2(n));
    st' := Learns(n, st2, 0, a);
    StageOn(n, st2, st2.servers[0], st2.servers[1], st2.servers[2], 2, 2, false, st', Zero2(n), st2.servers[1], Two2(n));
  }

  // It takes two commands, and its message to peer 2 stays on the way.
  lemma Term2(n: nat, st: State) returns (st': State)
    requires Stage(n, st, Zero2(n), One2(n, [MARKER]), Two2(n), 2, 2, false)
    ensures Stage(n, st', Zero2(n), One2(n, [MARKER, E, F]), Two2(n), 2, 2, true)
  {
    hide Ends, MakeAppend;
    var st1 := Proposes(n, st, 1, Command("e"));
    assert st1.servers[1] == One2(n, [MARKER, E]);
    StageOn(n, st, Zero2(n), st.servers[1], Two2(n), 2, 2, false, st1, Zero2(n), One2(n, [MARKER, E]), Two2(n));
    var st2 := Proposes(n, st1, 1, Command("f"));
    assert st2.servers[1] == One2(n, [MARKER, E, F]);
    StageOn(n, st1, Zero2(n), st1.servers[1], Two2(n), 2, 2, false, st2, Zero2(n), One2(n, [MARKER, E, F]), Two2(n));
    Second(n);
    st' := Sends(n, st2, 1, 2, 2);
    StageOn(n, st2, Zero2(n), st2.servers[1], Two2(n), 2, 2, false, st', Zero2(n), st2.servers[1], Two2(n));
  }

  lemma Second(n: nat)
    requires n >= 5
    ensures CanSend(One2(n, [MARKER, E, F]), 2) && MakeAppend(One2(n, [MARKER, E, F]), 2, 2) == STALE
  {
    assert [MARKER, E, F][1..] == [E, F];
  }

  function Zero3(n: nat, next: seq<int>): Server {
    Chief(n, 0, 3, 0, [MARKER, Z], Leader, next)
  }

  function One3(n: nat, log: seq<Entry>): Server {
    Chief(n, 1, 3, NONE, log, Follower, Fill(n, 1))
  }

  // Term 3: peer 0 leads again, and replaces the log of peer 1.
  lemma Term3Won(n: nat, st: State) returns (st': State)
    requires Stage(n, st, Zero2(n), One2(n, [MARKER, E, F]), Two2(n), 2, 2, true)
    ensures Stage(n, st', Zero3(n, Fill(n, 2)), One2(n, [MARKER, E, F]), Two2(n), 3, 3, true)
  {
    hide Ends, Winner;
    WinnerIs(n, st.servers[0], 2);
    st' := RestWins(n, st, 0, 2, 2);
  }

  lemma Third(n: nat)
    requires n >= 5
    ensures CanSend(Zero3(n, Fill(n, 2)), 1) && MakeAppend(Zero3(n, Fill(n, 2)), 1, 3) == AppendArgs(3, 0, 1, 1, [], 0)
    ensures CanSend(Zero3(n, Fill(n, 2)[1 := 1]), 1)
    ensures MakeAppend(Zero3(n, Fill(n, 2)[1 := 1]), 1, 3) == AppendArgs(3, 0, 0, 0, [Z], 0)
  {
    assert [MARKER, Z][2..] == [] && [MARKER, Z][1..] == [Z];
  }

  lemma Third1(n: nat)
    requires n >= 5
    ensures AppendEntries(One2(n, [MARKER, E, F]), AppendArgs(3, 0, 1, 1, [], 0)) ==
      (One3(n, [MARKER, E, F]), AppendReply(3, false, 1, 2))
    ensures AppendResponse(Zero3(n, Fill(n, 2)), 1, AppendArgs(3, 0, 1, 1, [], 0), AppendReply(3, false, 1, 2)).0 ==
      Zero3(n, Fill(n, 2)[1 := 1])
    ensures AppendEntries(One3(n, [MARKER, E, F]), AppendArgs(3, 0, 0, 0, [Z], 0)).0 == One3(n, [MARKER, Z])
  {
    assert RunStart([MARKER, E, F], 0, 2) == 1;
    assert LastWithTerm([MARKER, Z], 0, 2) == -1;
    assert [MARKER, E, F][..1] + [Z] == [MARKER, Z];
  }

  lemma Term3Refused(n: nat, st: State) returns (st': State)
    requires Stage(n, st, Zero3(n, Fill(n, 2)), One2(n, [MARKER, E, F]), Two2(n), 3, 3, true)
    ensures Stage(n, st', Zero3(n, Fill(n, 2)[1 := 1]), One3(n, [MARKER, E, F]), Two2(n), 3, 3, true)
  {
    hide Ends, AppendEntries, AppendResponse, MakeAppend;
    Third(n);
    Third1(n);
    var z, z', o := Zero3(n, Fill(n, 2)), Zero3(n, Fill(n, 2)[1 := 1]), One3(n, [MARKER, E, F]);
    var a := AppendArgs(3, 0, 1, 1, [], 0);
    var st1 := Sends(n, st, 0, 1, 3);
    StageOn(n, st, z, st.servers[1], Two2(n), 3, 3, true, st1, z, st.servers[1], Two2(n));
    var st2 := Receives(n, st1, 1, a);
    StageOn(n, st1, z, st1.servers[1], Two2(n), 3, 3, true, st2, z, o, Two2(n));
    st' := Hears(n, st2, 0, 1, a, AppendReply(3, false, 1, 2));
    StageOn(n, st2, z, o, Two2(n), 3, 3, true, st', z', o, Two2(n));
  }

  lemma Term3(n: nat, st: State) returns (st': State)
    requires n >= 5 && Stage(n, st, Zero3(n, Fill(n, 2)[1 := 1]), One3(n, [MARKER, E, F]), Two2(n), 3, 3, true)
    ensures Stage(n, st', Zero3(n, Fill(n, 2)[1 := 1]), One3(n, [MARKER, Z]), Two2(n), 3, 3, true)
  {
    hide Ends, AppendEntries, MakeAppend;
    Third(n);
    Third1(n);
    var z, o := Zero3(n, Fill(n, 2)[1 := 1]), One3(n, [MARKER, E, F]);
    var st1 := Sends(n, st, 0, 1, 3);
    StageOn(n, st, z, o, Two2(n), 3, 3, true, st1, z, o, Two2(n));
    st' := Receives(n, st1, 1, AppendArgs(3, 0, 0, 0, [Z], 0));
    StageOn(n, st1, z, o, Two2(n), 3, 3, true, st', z, One3(n, [MARKER, Z]), Two2(n));
  }

  // ---------------------------------------------------------------- term 4

  // Term 4: peer 1 leads again, and takes one more command.
  lemma Term4Won(n: nat, st: State) returns (st': State)
    requires n >= 5 && Stage(n, st, Zero3(n, Fill(n, 2)[1 := 1]), One3(n, [MARKER, Z]), Two2(n), 3, 3, true)
    ensures Stage(n, st', Zero3(n, Fill(n, 2)[1 := 1]), Chief(n, 1, 4, 1, LOG4, Leader, Fill(n, 2)), Two2(n), 4, 4, true)
  {
    hide Ends, Winner;
    WinnerIs(n, st.servers[1], 2);
    var z := Zero3(n, Fill(n, 2)[1 := 1]);
    var st1 := RestWins(n, st, 1, 3, 3);
    assert Stage(n, st1, z, st1.servers[1], Two2(n), 4, 4, true);
    st' := Proposes(n, st1, 1, Command("y"));
    assert st'.servers[1].log == LOG4;
    StageOn(n, st1, z, st1.servers[1], Two2(n), 4, 4, true, st', z, st'.servers[1], Two2(n));
  }

  // The leader of term 4 when the peers from 3 up to `k` hold its log.
  ghost predicate Leads4(s: Server, n: nat, k: nat) {
    && s.me == 1 && s.currentTerm == 4 && s.role == Leader && s.log == LOG4 && |s.nextIndex| == |s.matchIndex| == n
    && 3 <= k <= n && s.nextIndex[2] == 2 && (s.commitIndex == 0 || s.commitIndex == 2)
    && (forall j :: 3 <= j < k ==> s.matchIndex[j] == 2)
    && (forall j :: k <= j < n ==> s.matchIndex[j] == 0 && s.nextIndex[j] == 2)
  }

  ghost predicate Spread(n: nat, st: State, k: nat) {
    && n >= 5 && Reached(n, st) && Leads4(st.servers[1], n, k) && st.servers[2] == Two2(n)
    && (forall j: nat :: k <= j < n ==> st.servers[j] == Idle(n, j, 4, 1, [MARKER]))
    && Led(st, 4) && AppendRequest(2, STALE) in st.network
  }

  lemma SpreadOn(n: nat, st: State, k: nat, st': State, k': nat)
    requires Spread(n, st, k) && Onward(n, st, st') && st'.h.elections == st.h.elections && 3 <= k <= k'
    requires Leads4(st'.servers[1], n, k') && st'.servers[2] == st.servers[2]
    requires forall j: nat :: k' <= j < n ==> st'.servers[j] == st.servers[j]
    ensures Spread(n, st', k')
  {
    hide Ends;
  }

  // The first message to a peer without entries is refused, and the leader starts from the beginning.
  lemma Fourth(n: nat, s: Server, k: nat)
    requires n >= 5 && 3 <= k < n && Leads4(s, n, k)
    ensures CanSend(s, k) && MakeAppend(s, k, 4) == AppendArgs(4, 1, 1, 1, [Y], s.commitIndex)
    ensures AppendEntries(Idle(n, k, 4, 1, [MARKER]), AppendArgs(4, 1, 1, 1, [Y], s.commitIndex)) ==
      (Idle(n, k, 4, 1, [MARKER]), AppendReply(4, false, 1, -1))
    ensures CanHandle(s, k, AppendArgs(4, 1, 1, 1, [Y], s.commitIndex))
    ensures AppendResponse(s, k, AppendArgs(4, 1, 1, 1, [Y], s.commitIndex), AppendReply(4, false, 1, -1)).0 ==
      s.(nextIndex := s.nextIndex[k := 1])
  {
    assert LOG4[2..] == [Y];
  }

  // Then the peer takes the whole log.
  lemma FourthTaken(n: nat, s: Server, k: nat)
    requires n >= 5 && 3 <= k < n && Leads4(s, n, k)
    ensures
      var s', a := s.(nextIndex := s.nextIndex[k := 1]), AppendArgs(4, 1, 0, 0, [Z, Y], s.commitIndex);
      && CanSend(s', k) && MakeAppend(s', k, 4) == a && CanHandle(s', k, a)
      && AppendEntries(Idle(n, k, 4, 1, [MARKER]), a).1 == AppendReply(4, true, 0, 0)
  {
    assert LOG4[1..] == [Z, Y];
    assert [MARKER][..1] + [Z, Y] == LOG4;
  }

  lemma FourthHeard(n: nat, s: Server, k: nat)
    requires n >= 5 && 3 <= k < n && Leads4(s, n, k)
    ensures
      var s', a := s.(nextIndex := s.nextIndex[k := 1]), AppendArgs(4, 1, 0, 0, [Z, Y], s.commitIndex);
      && CanHandle(s', k, a)
      && var t := AppendResponse(s', k, a, AppendReply(4, true, 0, 0)).0;
         && Leads4(t, n, k + 1)
         && (k + 1 == n ==> t.commitIndex == 2)
  {
    var s', a := s.(nextIndex := s.nextIndex[k := 1]), AppendArgs(4, 1, 0, 0, [Z, Y], s.commitIndex);
    var s1 := s'.(matchIndex := s'.matchIndex[k := 2], nextIndex := s'.nextIndex[k := 3]);
    Scan4(s1);
    if k + 1 == n {
      Majority4(s1, n);
    }
  }

  lemma Scan4(s: Server)
    requires s.log == LOG4 && s.currentTerm == 4 && (s.commitIndex == 0 || s.commitIndex == 2)
    ensures Contiguous(s.log)
    ensures CommitScan(s, s.commitIndex + 1, s.commitIndex) ==
      if s.commitIndex == 2 || |Holders(s.me, s.matchIndex, 2)| * 2 >= |s.matchIndex| + 1 then 2 else 0
  {
    assert CommitScan(s, 3, 2) == 2;
    if s.commitIndex == 0 {
      assert CommitScan(s, 1, 0) == CommitScan(s, 2, 0);
    }
  }

  lemma Majority4(s: Server, n: nat)
    requires n >= 5 && s.me == 1 && |s.matchIndex| == n && forall j :: 3 <= j < n ==> s.matchIndex[j] == 2
    ensures |Holders(s.me, s.matchIndex, 2)| * 2 >= n + 1
  {
    var h := Holders(s.me, s.matchIndex, 2);
    var u := Rest(n) + {1};
    RestMajority(n);
    assert u <= h;
    SubsetSize(u, h);
  }

  lemma SpreadRefused(n: nat, st: State, k: nat) returns (st': State)
    requires Spread(n, st, k) && k < n
    ensures Onward(n, st, st') && st'.h.elections == st.h.elections
    ensures st'.servers == st.servers[1 := st.servers[1].(nextIndex := st.servers[1].nextIndex[k := 1])]
  {
    hide Ends, AppendEntries, AppendResponse, MakeAppend, CanSend, CanHandle;
    var s := st.servers[1];
    var a := AppendArgs(4, 1, 1, 1, [Y], s.commitIndex);
    Fourth(n, s, k);
    var st1 := Sends(n, st, 1, k, 4);
    var st2 := Receives(n, st1, k, a);
    assert st2.servers == st1.servers;
    st' := Hears(n, st2, 1, k, a, AppendReply(4, false, 1, -1));
  }

  lemma SpreadOne(n: nat, st: State, k: nat) returns (st': State)
    requires Spread(n, st, k) && k < n
    ensures Spread(n, st', k + 1) && (k + 1 == n ==> st'.servers[1].commitIndex == 2)
  {
    hide Ends, AppendEntries, AppendResponse, MakeAppend, CanSend, CanHandle;
    var s := st.servers[1];
    var a := AppendArgs(4, 1, 0, 0, [Z, Y], s.commitIndex);
    FourthTaken(n, s, k);
    FourthHeard(n, s, k);
    var st0 := SpreadRefused(n, st, k);
    var st1 := Sends(n, st0, 1, k, 4);
    var st2 := Receives(n, st1, k, a);
    st' := Hears(n, st2, 1, k, a, AppendReply(4, true, 0, 0));
    SpreadOn(n, st, k, st', k + 1);
  }

  // Peer 1 commits two entries with the peers from 3 on.
  lemma {:induction false} SpreadAll(n: nat, st: State, k: nat) returns (st': State)
    requires Spread(n, st, k) && (k == n ==> st.servers[1].commitIndex == 2)
    ensures Spread(n, st', n) && st'.servers[1].commitIndex == 2
    decreases n - k
  {
    hide Spread;
    assert k <= n by { SpreadBound(n, st, k); }
    if k == n {
      st' := st;
    } else {
      var st1 := SpreadOne(n, st, k);
      st' := SpreadAll(n, st1, k + 1);
    }
  }

  lemma SpreadBound(n: nat, st: State, k: nat)
    requires Spread(n, st, k)
    ensures k <= n
  {
  }

  // ---------------------------------------------------------------- the untimely send

  // The message that peer 1 sends in term 4 under the captured term 2 makes peer 2 commit; the message that it sent
  // while it did lead term 2 then replaces what peer 2 has committed.
  lemma Untimely(n: nat, s: Server)
    requires n >= 5 && Leads4(s, n, n) && s.commitIndex == 2
    ensures CanSend(s, 2) && MakeAppend(s, 2, 2) == AppendArgs(2, 1, 1, 1, [Y], 2)
    ensures AppendEntries(Two2(n), AppendArgs(2, 1, 1, 1, [Y], 2)).0 == Two2(n).(log := LOG4, commitIndex := 2)
    ensures AppendEntries(Two2(n).(log := LOG4, commitIndex := 2), STALE).0 == Two2(n).(log := [MARKER, E, F], commitIndex := 2)
  {
    assert LOG4[2..] == [Y];
    assert [MARKER, Z][..2] + [Y] == LOG4;
    assert LOG4[..1] + [E, F] == [MARKER, E, F];
  }

  lemma SendsUntimely(n: nat, st: State) returns (st': State)
    requires Spread(n, st, n) && st.servers[1].commitIndex == 2
    ensures Reached(n, st') && Commits(st', 1, 1) && Commits(st', 2, 1) && st'.servers[1].log[1] != st'.servers[2].log[1]
  {
    hide Ends, AppendEntries, MakeAppend, CanSend;
    Untimely(n, st.servers[1]);
    var st1 := Sends(n, st, 1, 2, 2);
    var st2 := Receives(n, st1, 2, AppendArgs(2, 1, 1, 1, [Y], 2));
    st' := Receives(n, st2, 2, STALE);
  }

  lemma WholeRun(n: nat) returns (st: State)
    requires n >= 5
    ensures Reached(n, st) && Commits(st, 1, 1) && Commits(st, 2, 1) && st.servers[1].log[1] != st.servers[2].log[1]
  {
    hide Reached, Stage;
    var st0 := AllIdle(n);
    var st1 := Term1Won(n, st0);
    var st2 := Term1(n, st1);
    var st3 := Term2Won(n, st2);
    var st4 := Term2(n, st3);
    var st5 := Term3Won(n, st4);
    var st6 := Term3Refused(n, st5);
    var st7 := Term3(n, st6);
    var st8 := Term4Won(n, st7);
    assert Spread(n, st8, 3) by { FromStage(n, st8); }
    var st9 := SpreadAll(n, st8, 3);
    st := SendsUntimely(n, st9);
  }

  lemma FromStage(n: nat, st: State)
    requires n >= 5 && Stage(n, st, Zero3(n, Fill(n, 2)[1 := 1]), Chief(n, 1, 4, 1, LOG4, Leader, Fill(n, 2)), Two2(n), 4, 4, true)
    ensures Spread(n, st, 3)
  {
  }

  /** Without the premise that sends are timely, state machine safety fails in every cluster of at least five peers: some
      run commits two different entries at one index. */
  lemma UntimelySendsAreUnsafe(n: nat)
    requires n >= 5
    ensures exists states, events, i, j, k :: Run(n, states, events) && UnsafeAt(states[|events|], i, j, k)
  {
    var st := WholeRun(n);
    var states, events :| Run(n, states, events) && states[|events|] == st;
    assert UnsafeAt(states[|events|], 1, 2, 1);
  }

  // Two peers have committed different entries at index `k`.
  ghost predicate UnsafeAt(st: State, i: nat, j: nat, k: int) {
    Commits(st, i, k) && Commits(st, j, k) && st.servers[i].log[k] != st.servers[j].log[k]
  }

  /** Every run in which two peers, at any two times, have committed different entries at one index is a run of at least
      five peers with a send that is not timely. */
  lemma UnsafeRunsAreUntimely(n: nat, states: seq<State>, events: seq<Event>, a: nat, b: nat, i: nat, j: nat, k: int)
    requires Run(n, states, events) && a < |states| && b < |states|
    requires Commits(states[a], i, k) && Commits(states[b], j, k)
    requires states[a].servers[i].log[k] != states[b].servers[j].log[k]
    ensures n >= 5 && exists m :: 0 <= m < |events| && !Timely(states[m], events[m])
  {
    if CalmRun(n, states, events) {
      if a <= b {
        StateMachineSafety(n, states, events, a, b, i, j, k);
      } else {
        StateMachineSafety(n, states, events, b, a, j, i, k);
      }
    }
  }

  // No two peers commit different entries at one index, at any two times.
  ghost predicate Safe(states: seq<State>) {
    forall a: nat, b: nat, i: nat, j: nat, k :: a < |states| && b < |states| && Commits(states[a], i, k) && Commits(states[b], j, k) ==>
      states[a].servers[i].log[k] == states[b].servers[j].log[k]
  }

  /** Late sends are harmless exactly in clusters of at most four peers. */
  lemma SafeUpToFour(n: nat)
    ensures (forall states, events :: Run(n, states, events) ==> Safe(states)) <==> n <= 4
  {
    if n <= 4 {
      forall states, events | Run(n, states, events) ensures Safe(states) {
        AllSafe(n, states, events);
      }
    } else {
      UntimelySendsAreUnsafe(n);
      var states, events, i, j, k :| Run(n, states, events) && UnsafeAt(states[|events|], i, j, k);
      assert !Safe(states);
    }
  }

  lemma AllSafe(n: nat, states: seq<State>, events: seq<Event>)
    requires Run(n, states, events) && n <= 4
    ensures Safe(states)
  {
    hide Run;
    forall a: nat, b: nat, i: nat, j: nat, k | a < |states| && b < |states| && Commits(states[a], i, k) && Commits(states[b], j, k)
      ensures states[a].servers[i].log[k] == states[b].servers[j].log[k]
    {
      if states[a].servers[i].log[k] != states[b].servers[j].log[k] {
        UnsafeRunsAreUntimely(n, states, events, a, b, i, j, k);
      }
    }
  }
}
