/** A cluster of Raft peers as a step system: every handler body that runs under a peer's lock is one
    step, and the network is a set of messages that may be lost, delayed, reordered or delivered again.

    `History` only records what happened; no step looks at it.
 */
module RaftProtocol {
  import opened Basics
  import opened RaftLog
  import opened RaftHandlers

  datatype Message =
    | VoteRequest(to: nat, voteArgs: RequestVoteArgs)
    | VoteAnswer(candidate: nat, voter: nat, voteArgs: RequestVoteArgs, vote: RequestVoteReply)
    | AppendRequest(to: nat, args: AppendArgs)
    | AppendAnswer(leader: nat, follower: nat, args: AppendArgs, reply: AppendReply)

  datatype Vote = Vote(candidate: int, log: seq<Entry>)

  datatype Election = Election(leader: nat, log: seq<Entry>, quorum: set<nat>)

  /** What happened so far.
      - `elections`: the winner of a term, its log when it won, and the peers whose votes it counted
      - `leaderLog`: the log of the leader of a term, as far as it grew during that term
      - `votes`: by term and voter, who got the vote and the voter's log at that moment
      - `acks`: by term and peer, up to which index the peer held the log of that term's leader
      - `counted`: by term and candidate, the peers whose votes were counted
      - `late`: whether some replication round sent a message after its term
   */
  datatype History = History(
    elections: map<int, Election>,
    leaderLog: map<int, seq<Entry>>,
    votes: map<(int, nat), Vote>,
    acks: map<(int, nat), int>,
    counted: map<(int, nat), set<nat>>,
    late: bool)

  // `voteCalls` holds the vote requests (term, candidate, voter) whose call has not returned yet.
  datatype State = State(
    servers: seq<Server>, network: set<Message>, voteCalls: set<(int, nat, nat)>, h: History)

  datatype Event =
    | Timeout(i: nat)
    | DeliverVoteRequest(i: nat, voteArgs: RequestVoteArgs)
    | DeliverVoteAnswer(i: nat, voter: nat, voteArgs: RequestVoteArgs, vote: RequestVoteReply)
    | ClientRequest(i: nat, command: Command)
    | SendAppend(i: nat, peer: nat, captured: int)
    | DeliverAppend(i: nat, args: AppendArgs)
    | DeliverAppendAnswer(i: nat, follower: nat, args: AppendArgs, reply: AppendReply)
    | ApplyCommitted(i: nat)
    | Crash(i: nat)
    | Reboot(i: nat)

  function FreshServer(n: nat, i: nat): Server {
    Server(i, 0, NONE, [MARKER], Follower, 0, 0, seq(n, _ => 1), seq(n, _ => 0), 0)
  }

  function Init(n: nat): State {
    State(seq(n, i requires 0 <= i < n => FreshServer(n, i)), {}, {}, History(map[], map[], map[], map[], map[], false))
  }

  // The guards that the source checks before each step.
  ghost predicate Enabled(st: State, e: Event) {
    && e.i < |st.servers|
    && var s := st.servers[e.i];
       match e
       case Timeout(_) => s.role == Follower || s.role == Candidate
       case DeliverVoteRequest(i, a) => VoteRequest(i, a) in st.network
       case DeliverVoteAnswer(i, voter, a, r) =>
         VoteAnswer(i, voter, a, r) in st.network && (a.term, i, voter) in st.voteCalls
       case ClientRequest(_, _) => true
       case SendAppend(i, peer, captured) =>
         // a replication round that this peer started as the leader of the captured term
         && s.role == Leader && peer < |st.servers| && peer != i
         && captured in st.h.elections && st.h.elections[captured].leader == i
       case DeliverAppend(i, a) => AppendRequest(i, a) in st.network
       case DeliverAppendAnswer(i, f, a, r) => AppendAnswer(i, f, a, r) in st.network
       case ApplyCommitted(_) => s.role != Dead && s.lastApplied < s.commitIndex
       case Crash(_) => true
       case Reboot(_) => true
  }

  // No slice or index of the step's handler leaves the log, and no snapshot is needed.
  ghost predicate InRange(st: State, e: Event) {
    && e.i < |st.servers|
    && var s := st.servers[e.i];
       && Contiguous(s.log)
       && match e
          case SendAppend(_, peer, _) => CanSend(s, peer)
          case DeliverAppendAnswer(_, f, a, _) =>
            s.role == Leader && s.currentTerm == a.term ==> CanHandle(s, f, a)
          case ApplyCommitted(_) => First(s.log) <= s.lastApplied + 1 && s.commitIndex < NextIndex(s.log)
          case _ => true
  }

  function RecordVote(h: History, i: nat, s: Server): History {
    if s.voteFor == NONE || (s.currentTerm, i) in h.votes then h
    else h.(votes := h.votes[(s.currentTerm, i) := Vote(s.voteFor, s.log)])
  }

  function RecordAck(h: History, i: nat, term: int, index: int): History {
    h.(acks := h.acks[(term, i) := if (term, i) in h.acks then Max(h.acks[(term, i)], index) else index])
  }

  // The log is that of the leader of `term` up to `index`.
  predicate HoldsTerm(h: History, log: seq<Entry>, term: int, index: int) {
    term in h.leaderLog && 0 <= index < |log| && index < |h.leaderLog[term]| && log[..index + 1] == h.leaderLog[term][..index + 1]
  }

  function CountedFor(h: History, i: nat, term: int): set<nat> {
    if (term, i) in h.counted then h.counted[(term, i)] else {}
  }

  function RecordCount(h: History, i: nat, term: int, voter: nat): History {
    h.(counted := h.counted[(term, i) := CountedFor(h, i, term) + {voter}])
  }

  function RecordLeader(h: History, i: nat, s: Server): History {
    RecordAck(
      h.(elections := h.elections[s.currentTerm := Election(i, s.log, CountedFor(h, i, s.currentTerm))],
         leaderLog := h.leaderLog[s.currentTerm := s.log]),
      i, s.currentTerm, |s.log| - 1)
  }

  function RecordGrowth(h: History, i: nat, s: Server): History {
    RecordAck(h.(leaderLog := h.leaderLog[s.currentTerm := s.log]), i, s.currentTerm, |s.log| - 1)
  }

  function Ask(st: State, i: nat): State
    requires i < |st.servers| && |st.servers[i].log| > 0
  {
    var n := |st.servers|;
    var (s, a) := StartElection(st.servers[i]);
    State(st.servers[i := s],
          st.network + (set j: nat | j < n && j != i :: VoteRequest(j, a)),
          st.voteCalls + (set j: nat | j < n && j != i :: (a.term, i, j)),
          RecordVote(st.h, i, s).(counted := st.h.counted[(a.term, i) := {i}]))
  }

  function Answer(st: State, i: nat, a: RequestVoteArgs): State
    requires i < |st.servers| && |st.servers[i].log| > 0
  {
    var (s, r) := RequestVote(st.servers[i], a);
    st.(servers := st.servers[i := s],
        network := st.network + (if a.candidateId >= 0 then {VoteAnswer(a.candidateId, i, a, r)} else {}),
        h := RecordVote(st.h, i, s))
  }

  function Count(st: State, i: nat, voter: nat, a: RequestVoteArgs, r: RequestVoteReply): State
    requires i < |st.servers| && |st.servers[i].log| > 0
  {
    var s := st.servers[i];
    var s' := VoteReply(s, |st.servers|, a, r);
    var h1 := if s.role == Candidate && s.currentTerm == a.term && r.voteGranted
              then RecordCount(st.h, i, a.term, voter) else st.h;
    State(st.servers[i := s'], st.network, st.voteCalls - {(a.term, i, voter)},
          if s.role == Candidate && s'.role == Leader then RecordLeader(h1, i, s') else h1)
  }

  function Propose(st: State, i: nat, command: Command): State
    requires i < |st.servers| && |st.servers[i].log| > 0
  {
    var s := Start(st.servers[i], command);
    st.(servers := st.servers[i := s], h := if s.role == Leader then RecordGrowth(st.h, i, s) else st.h)
  }

  function Replicate(st: State, i: nat, peer: nat, captured: int): State
    requires i < |st.servers| && CanSend(st.servers[i], peer)
  {
    st.(network := st.network + {AppendRequest(peer, MakeAppend(st.servers[i], peer, captured))},
        h := st.h.(late := st.h.late || captured != st.servers[i].currentTerm))
  }

  function Receive(st: State, i: nat, a: AppendArgs): State
    requires i < |st.servers| && Contiguous(st.servers[i].log)
  {
    var (s, r) := AppendEntries(st.servers[i], a);
    st.(servers := st.servers[i := s],
        network := st.network + (if a.leaderId >= 0 then {AppendAnswer(a.leaderId, i, a, r)} else {}),
        h := if r.success && HoldsTerm(st.h, s.log, a.term, a.prevLogIndex + |a.entries|)
             then RecordAck(st.h, i, a.term, a.prevLogIndex + |a.entries|) else st.h)
  }

  function Exec(st: State, e: Event): State
    requires InRange(st, e)
  {
    match e
    case Timeout(i) => Ask(st, i)
    case DeliverVoteRequest(i, a) => Answer(st, i, a)
    case DeliverVoteAnswer(i, voter, a, r) => Count(st, i, voter, a, r)
    case ClientRequest(i, c) => Propose(st, i, c)
    case SendAppend(i, peer, captured) => Replicate(st, i, peer, captured)
    case DeliverAppend(i, a) => Receive(st, i, a)
    case DeliverAppendAnswer(i, f, a, r) => st.(servers := st.servers[i := AppendResponse(st.servers[i], f, a, r).0])
    case ApplyCommitted(i) => st.(servers := st.servers[i := Apply(st.servers[i])])
    case Crash(i) => st.(servers := st.servers[i := Kill(st.servers[i])])
    case Reboot(i) => st.(servers := st.servers[i := Restart(st.servers[i])])
  }

  /** The source captures a term when a replication round starts, and before a send it checks again
      only that the peer leads.  A send is timely when the captured term is still the current one.
   */
  ghost predicate Timely(st: State, e: Event) {
    e.SendAppend? && e.i < |st.servers| ==> e.captured == st.servers[e.i].currentTerm
  }

  ghost predicate Step(st: State, e: Event, st': State) {
    Enabled(st, e) && InRange(st, e) && st' == Exec(st, e)
  }

  // A run of `n` peers: `states[k + 1]` follows `states[k]` by `events[k]`.
  ghost predicate Run(n: nat, states: seq<State>, events: seq<Event>) {
    && |states| == |events| + 1
    && states[0] == Init(n)
    && forall k :: 0 <= k < |events| ==> Step(states[k], events[k], states[k + 1])
  }

  ghost predicate TimelyRun(n: nat, states: seq<State>, events: seq<Event>) {
    && Run(n, states, events)
    && forall k :: 0 <= k < |events| ==> Timely(states[k], events[k])
  }

  // A run in which every send is timely, or any run of at most four peers.
  ghost predicate CalmRun(n: nat, states: seq<State>, events: seq<Event>) {
    && Run(n, states, events)
    && (n <= 4 || forall k :: 0 <= k < |events| ==> Timely(states[k], events[k]))
  }
}
