/** The state of one Raft peer and what each handler, run under the peer's lock, makes of it.

    These functions are the specification of the methods of `RaftServer.Raft`, and the steps of the
    protocol in `RaftProtocol`.
 */
module RaftHandlers {
  import opened Basics
  import opened RaftLog

  datatype Role = Follower | Candidate | Leader | Dead

  const NONE := -1

  datatype Server = Server(
    me: nat,
    currentTerm: int,
    voteFor: int,
    log: seq<Entry>,
    role: Role,
    commitIndex: int,
    lastApplied: int,
    nextIndex: seq<int>,
    matchIndex: seq<int>,
    receivedVotes: int)

  datatype RequestVoteArgs = RequestVoteArgs(term: int, candidateId: int, lastLogIndex: int, lastLogTerm: int)

  datatype RequestVoteReply = RequestVoteReply(term: int, voteGranted: bool)

  datatype AppendArgs = AppendArgs(
    term: int, leaderId: int, prevLogIndex: int, prevLogTerm: int, entries: seq<Entry>, leaderCommit: int)

  datatype AppendReply = AppendReply(term: int, success: bool, conflictIndex: int, conflictTerm: int)

  function BecomeFollower(s: Server, term: int): Server {
    s.(role := Follower, currentTerm := term, voteFor := NONE)
  }

  // A peer that has seen a larger term joins it as a follower.
  function Catchup(s: Server, term: int): Server {
    if term > s.currentTerm then BecomeFollower(s, term) else s
  }

  predicate GrantsVote(s: Server, a: RequestVoteArgs)
    requires |s.log| > 0
  {
    && s.currentTerm == a.term
    && (s.voteFor == NONE || s.voteFor == a.candidateId)
    && UpToDate(a.lastLogTerm, a.lastLogIndex, s.log)
  }

  function RequestVote(s: Server, a: RequestVoteArgs): (Server, RequestVoteReply)
    requires |s.log| > 0
  {
    if s.role == Dead then (s, RequestVoteReply(0, false)) else
    var s1 := Catchup(s, a.term);
    if GrantsVote(s1, a) then
      (s1.(voteFor := if s1.voteFor == NONE then a.candidateId else s1.voteFor), RequestVoteReply(s1.currentTerm, true))
    else
      (s1, RequestVoteReply(s1.currentTerm, false))
  }

  function StartElection(s: Server): (Server, RequestVoteArgs)
    requires |s.log| > 0
  {
    (s.(currentTerm := s.currentTerm + 1, role := Candidate, voteFor := s.me, receivedVotes := 1),
     RequestVoteArgs(s.currentTerm + 1, s.me, LastIndex(s.log), LastTerm(s.log)))
  }

  function BecomeLeader(s: Server): Server
    requires |s.log| > 0
  {
    s.(role := Leader,
       nextIndex := seq(|s.nextIndex|, _ => NextIndex(s.log)),
       matchIndex := seq(|s.matchIndex|, _ => 0))
  }

  // A candidate learns the answer to one of its vote requests; `n` is the number of peers.
  function VoteReply(s: Server, n: nat, a: RequestVoteArgs, r: RequestVoteReply): Server
    requires |s.log| > 0
  {
    if s.role == Candidate && s.currentTerm == a.term then
      if r.voteGranted then
        var s1 := s.(receivedVotes := s.receivedVotes + 1);
        if s1.receivedVotes * 2 >= n + 1 then BecomeLeader(s1) else s1
      else
        Catchup(s, r.term)
    else s
  }

  // A leader appends a client's command; the other roles refuse it.
  function Start(s: Server, command: Command): Server
    requires |s.log| > 0
  {
    if s.role == Leader then
      s.(log := s.log + [Entry(command, s.currentTerm, NextIndex(s.log))])
    else s
  }

  // The next entry for `peer` is still in the log, so it is sent entries and not a snapshot.
  ghost predicate CanSend(s: Server, peer: nat) {
    && Contiguous(s.log)
    && peer < |s.nextIndex|
    && First(s.log) < s.nextIndex[peer] <= NextIndex(s.log)
  }

  // The message of one replication round, stamped with the term the round captured.
  function MakeAppend(s: Server, peer: nat, captured: int): AppendArgs
    requires CanSend(s, peer)
  {
    var next := s.nextIndex[peer];
    AppendArgs(captured, s.me, next - 1, TermAt(s.log, next - 1), s.log[next - First(s.log)..], s.commitIndex)
  }

  predicate HasPrev(log: seq<Entry>, prev: int, prevTerm: int)
    requires Contiguous(log) && First(log) <= prev
  {
    prev < NextIndex(log) && prevTerm == TermAt(log, prev)
  }

  function Accept(s: Server, a: AppendArgs): Server
    requires Contiguous(s.log) && InLog(s.log, a.prevLogIndex)
  {
    var log := Merge(s.log, a.prevLogIndex, a.entries);
    s.(log := log,
       commitIndex := if a.leaderCommit > s.commitIndex then Min(NextIndex(log) - 1, a.leaderCommit) else s.commitIndex)
  }

  // Where the leader should continue after a mismatch behind `prev`.
  function Reject(s: Server, prev: int): AppendReply
    requires Contiguous(s.log) && First(s.log) <= prev
  {
    if prev >= NextIndex(s.log) then
      AppendReply(s.currentTerm, false, NextIndex(s.log), -1)
    else
      AppendReply(s.currentTerm, false, RunStart(s.log, prev - 1, TermAt(s.log, prev)), TermAt(s.log, prev))
  }

  function AppendEntries(s: Server, a: AppendArgs): (Server, AppendReply)
    requires Contiguous(s.log)
  {
    if s.role == Dead then (s, AppendReply(0, false, 0, 0)) else
    var s1 := Catchup(s, a.term);
    if a.term != s1.currentTerm then (s1, AppendReply(s1.currentTerm, false, 0, 0)) else
    var s2 := s1.(role := Follower);
    if a.prevLogIndex < First(s2.log) then (s2, AppendReply(0, false, 0, 0))
    else if HasPrev(s2.log, a.prevLogIndex, a.prevLogTerm) then
      (Accept(s2, a), AppendReply(s2.currentTerm, true, 0, 0))
    else
      (s2, Reject(s2, a.prevLogIndex))
  }

  // The peers that are known to hold index `i`: the leader itself and those it has matched so far.
  function Holders(me: nat, matchIndex: seq<int>, i: int): set<nat> {
    set j: nat | j < |matchIndex| && (j == me || matchIndex[j] >= i)
  }

  // The commit scan: a later entry of the current term counts only while a majority holds it.
  function CommitScan(s: Server, i: int, committed: int): (r: int)
    requires Contiguous(s.log) && First(s.log) <= i
    decreases NextIndex(s.log) - i
  {
    if i >= NextIndex(s.log) then committed
    else if TermAt(s.log, i) != s.currentTerm then CommitScan(s, i + 1, committed)
    else if |Holders(s.me, s.matchIndex, i)| * 2 >= |s.matchIndex| + 1 then CommitScan(s, i + 1, i)
    else committed
  }

  // The index the leader tries next after `reply` refused a message with this `prev`.
  function Backtrack(log: seq<Entry>, prev: int, reply: AppendReply, matched: int): int
    requires Contiguous(log) && prev <= NextIndex(log)
  {
    var last := if reply.conflictTerm > 0 then LastWithTerm(log, prev - 1, reply.conflictTerm) else -1;
    if last > 0 then last + 1 else Max(reply.conflictIndex, matched + 1)
  }

  // What the leader must find in range when the answer to `a` comes back.
  ghost predicate CanHandle(s: Server, peer: nat, a: AppendArgs) {
    && Contiguous(s.log)
    && peer < |s.nextIndex| == |s.matchIndex|
    && s.me < |s.matchIndex|
    && a.prevLogIndex <= NextIndex(s.log)
    && First(s.log) <= s.commitIndex + 1
  }

  function AppendSucceeded(s: Server, peer: nat, a: AppendArgs): Server
    requires CanHandle(s, peer, a)
  {
    var m := Max(s.matchIndex[peer], a.prevLogIndex + |a.entries|);
    var s1 := s.(matchIndex := s.matchIndex[peer := m], nextIndex := s.nextIndex[peer := m + 1]);
    s1.(commitIndex := CommitScan(s1, s1.commitIndex + 1, s1.commitIndex))
  }

  // Returns the new state and whether the round is repeated.
  function AppendResponse(s: Server, peer: nat, a: AppendArgs, r: AppendReply): (Server, bool)
    requires s.role == Leader && s.currentTerm == a.term ==> CanHandle(s, peer, a)
  {
    if s.role != Leader || s.currentTerm != a.term then (s, false)
    else if r.term == s.currentTerm then
      if r.success then (AppendSucceeded(s, peer, a), false)
      else
        (s.(nextIndex := s.nextIndex[peer := Backtrack(s.log, a.prevLogIndex, r, s.matchIndex[peer])]), true)
    else (Catchup(s, r.term), false)
  }

  // The entries handed to the service, from behind `lastApplied` up to `commitIndex`.
  function ToApply(s: Server): seq<Entry>
    requires Contiguous(s.log)
    requires First(s.log) <= s.lastApplied + 1 && s.commitIndex < NextIndex(s.log)
  {
    if s.lastApplied < s.commitIndex
    then s.log[s.lastApplied + 1 - First(s.log)..s.commitIndex + 1 - First(s.log)]
    else []
  }

  function Apply(s: Server): Server {
    s.(lastApplied := Max(s.lastApplied, s.commitIndex))
  }

  function Kill(s: Server): Server {
    s.(role := Dead)
  }

  // A restarted peer keeps its term, its vote and its log.
  function Restart(s: Server): Server
    requires |s.log| > 0
  {
    Server(s.me, s.currentTerm, s.voteFor, s.log, Follower, First(s.log), First(s.log),
           seq(|s.nextIndex|, _ => NextIndex(s.log)), seq(|s.matchIndex|, _ => 0), 0)
  }
}
