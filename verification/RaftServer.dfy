/** One Raft peer as the source has it: an object whose handlers update its fields in place.

    Every handler is proved to do what its function in `RaftHandlers` says, and to leave the persisted
    copy of term, vote and log up to date; that is why a restart may resume from it.
 */
module RaftServer {
  import opened Basics
  import opened RaftLog
  import H = RaftHandlers

  datatype Persisted = Persisted(term: int, vote: int, log: seq<Entry>)

  // The entries of a message carry the indices behind `prev`.
  ghost predicate Numbered(entries: seq<Entry>, prev: int) {
    forall k :: 0 <= k < |entries| ==> entries[k].index == prev + 1 + k
  }

  // `stored` is what a peer in state `s` had persisted.
  ghost predicate LeftBehind(s: H.Server, peers: nat, me: nat, stored: Persisted) {
    && s.me == me && |s.nextIndex| == |s.matchIndex| == peers && |s.log| > 0
    && stored == Persisted(s.currentTerm, s.voteFor, s.log)
  }

  lemma MergeContiguous(log: seq<Entry>, prev: int, entries: seq<Entry>)
    requires Contiguous(log) && InLog(log, prev) && Numbered(entries, prev)
    ensures Contiguous(Merge(log, prev, entries))
  {
  }

  class Raft {
    const me: nat
    const peers: nat
    var currentTerm: int
    var voteFor: int
    var log: seq<Entry>
    var role: H.Role
    var commitIndex: int
    var lastApplied: int
    var nextIndex: seq<int>
    var matchIndex: seq<int>
    var receivedVotes: int
    var persister: Persisted

    ghost function Abs(): H.Server
      reads this
    {
      H.Server(me, currentTerm, voteFor, log, role, commitIndex, lastApplied, nextIndex, matchIndex, receivedVotes)
    }

    ghost predicate Valid()
      reads this
    {
      && me < peers
      && Contiguous(log)
      && |nextIndex| == |matchIndex| == peers
      && persister == Persisted(currentTerm, voteFor, log)
    }

    // A peer starts from what an earlier life persisted, or from the marker entry alone.
    constructor (peers: nat, me: nat, stored: Persisted)
      requires me < peers && Contiguous(stored.log)
      ensures Valid() && this.me == me && this.peers == peers
      // whatever state the earlier life was in, the peer resumes as that state restarted
      ensures forall s: H.Server :: LeftBehind(s, peers, me, stored) ==> Abs() == H.Restart(s)
    {
      this.me := me;
      this.peers := peers;
      currentTerm, voteFor, log := stored.term, stored.vote, stored.log;
      role := H.Follower;
      commitIndex, lastApplied := First(stored.log), First(stored.log);
      nextIndex, matchIndex := seq(peers, _ => NextIndex(stored.log)), seq(peers, _ => 0);
      receivedVotes := 0;
      persister := stored;
    }

    method Persist()
      modifies this`persister
      ensures persister == Persisted(currentTerm, voteFor, log)
    {
      persister := Persisted(currentTerm, voteFor, log);
    }

    method BecomeFollower(term: int)
      requires Valid()
      modifies this
      ensures Valid() && Abs() == H.BecomeFollower(old(Abs()), term)
    {
      role := H.Follower;
      currentTerm := term;
      voteFor := H.NONE;
      Persist();
    }

    method BecomeLeader()
      requires Valid()
      modifies this
      ensures Valid() && Abs() == H.BecomeLeader(old(Abs()))
    {
      role := H.Leader;
      var next := NextIndex(log);
      var i := 0;
      while i < peers
        invariant 0 <= i <= peers
        invariant Valid() && role == H.Leader && next == NextIndex(log)
        invariant Abs().(nextIndex := [], matchIndex := []) == old(Abs()).(role := H.Leader, nextIndex := [], matchIndex := [])
        invariant forall j :: 0 <= j < i ==> nextIndex[j] == next && matchIndex[j] == 0
      {
        nextIndex := nextIndex[i := next];
        matchIndex := matchIndex[i := 0];
        i := i + 1;
      }
      assert nextIndex == seq(peers, _ => next) && matchIndex == seq(peers, _ => 0);
    }

    method RequestVote(args: H.RequestVoteArgs) returns (reply: H.RequestVoteReply)
      requires Valid()
      modifies this
      ensures Valid() && (Abs(), reply) == H.RequestVote(old(Abs()), args)
    {
      if role == H.Dead {
        return H.RequestVoteReply(0, false);
      }
      if args.term > currentTerm {
        BecomeFollower(args.term);
      }
      var granted, needPersist := false, false;
      var lastLogIndex, lastLogTerm := LastIndex(log), LastTerm(log);
      if currentTerm == args.term {
        if voteFor == H.NONE || voteFor == args.candidateId {
          if args.lastLogTerm > lastLogTerm || (args.lastLogTerm == lastLogTerm && args.lastLogIndex >= lastLogIndex) {
            granted := true;
            if voteFor == H.NONE {
              voteFor := args.candidateId;
              needPersist := true;
            }
          }
        }
      }
      if needPersist {
        Persist();
      }
      reply := H.RequestVoteReply(currentTerm, granted);
    }

    method StartElection() returns (args: H.RequestVoteArgs)
      requires Valid()
      modifies this
      ensures Valid() && (Abs(), args) == H.StartElection(old(Abs()))
    {
      currentTerm := currentTerm + 1;
      role := H.Candidate;
      voteFor := me;
      Persist();
      receivedVotes := 1;
      args := H.RequestVoteArgs(currentTerm, me, LastIndex(log), LastTerm(log));
    }

    method HandleVoteReply(args: H.RequestVoteArgs, reply: H.RequestVoteReply)
      requires Valid()
      modifies this
      ensures Valid() && Abs() == H.VoteReply(old(Abs()), peers, args, reply)
      ensures old(role) == H.Candidate && old(currentTerm) == args.term && !reply.voteGranted && reply.term > args.term ==>
        role == H.Follower && currentTerm == reply.term && voteFor == H.NONE
    {
      if role == H.Candidate && currentTerm == args.term {
        if reply.voteGranted {
          receivedVotes := receivedVotes + 1;
          if receivedVotes * 2 >= peers + 1 {
            BecomeLeader();
          }
        } else if reply.term > currentTerm {
          BecomeFollower(reply.term);
        }
      }
    }

    method Start(command: Command) returns (index: int, term: int, isLeader: bool)
      requires Valid()
      modifies this
      ensures Valid() && Abs() == H.Start(old(Abs()), command)
      ensures term == currentTerm && isLeader == (role == H.Leader)
      ensures isLeader ==> InLog(log, index) && log[index - First(log)] == Entry(command, term, index)
      ensures !isLeader ==> index == -1
    {
      if role != H.Leader {
        return -1, currentTerm, false;
      }
      log := log + [Entry(command, currentTerm, NextIndex(log))];
      Persist();
      return LastIndex(log), currentTerm, true;
    }

    // One round of replication to `server`; it captured the term when it started.
    method MakeAppend(server: nat, captured: int) returns (args: H.AppendArgs)
      requires Valid() && H.CanSend(Abs(), server)
      ensures args == H.MakeAppend(Abs(), server, captured)
      // the message reaches the end of the log, so it covers everything the leader has committed
      ensures args.prevLogIndex + |args.entries| == LastIndex(log)
      ensures Numbered(args.entries, args.prevLogIndex)
    {
      var prev := nextIndex[server] - 1;
      var entries := log[nextIndex[server] - First(log)..];
      args := H.AppendArgs(captured, me, prev, TermAt(log, prev), entries, commitIndex);
    }

    // The index at which the log and the message's entries part.
    method FindMismatch(prev: int, entries: seq<Entry>) returns (k: nat)
      requires Valid() && InLog(log, prev)
      ensures k == MatchLen(log, prev + 1, entries) <= |entries|
      ensures 0 <= prev + 1 + k - First(log) <= |log|
    {
      k := 0;
      var insertIndex := prev + 1;
      while !(insertIndex >= NextIndex(log) || k >= |entries| || TermAt(log, insertIndex) != entries[k].term)
        invariant k <= |entries| && insertIndex == prev + 1 + k
        invariant MatchLen(log, prev + 1, entries) == k + MatchLen(log, insertIndex, entries[k..])
        decreases |entries| - k
      {
        assert entries[k..][1..] == entries[k + 1..];
        insertIndex := insertIndex + 1;
        k := k + 1;
      }
    }

    method FindConflict(prev: int) returns (index: int)
      requires Valid() && InLog(log, prev)
      ensures index == RunStart(log, prev - 1, TermAt(log, prev))
    {
      var term := TermAt(log, prev);
      index := prev - 1;
      while index >= First(log) && TermAt(log, index) == term
        invariant First(log) - 1 <= index < prev
        invariant RunStart(log, prev - 1, term) == RunStart(log, index, term)
        decreases index - First(log)
      {
        index := index - 1;
      }
      index := index + 1;
    }

    // Overwrites the log from the first mismatch on; a matching log is left alone, even when it is longer.
    method Overwrite(prev: int, entries: seq<Entry>)
      requires Valid() && InLog(log, prev) && Numbered(entries, prev)
      modifies this`log, this`persister
      ensures Valid() && log == Merge(old(log), prev, entries)
    {
      var k := FindMismatch(prev, entries);
      MergeContiguous(log, prev, entries);
      hide MatchLen;
      if k < |entries| {
        log := log[..prev + 1 + k - First(log)] + entries[k..];
        Persist();
      }
    }

    method AcceptEntries(args: H.AppendArgs)
      requires Valid() && InLog(log, args.prevLogIndex) && Numbered(args.entries, args.prevLogIndex)
      modifies this
      ensures Valid() && Abs() == H.Accept(old(Abs()), args)
    {
      hide Merge;
      Overwrite(args.prevLogIndex, args.entries);
      if args.leaderCommit > commitIndex {
        commitIndex := Min(NextIndex(log) - 1, args.leaderCommit);
      }
    }

    method AppendEntries(args: H.AppendArgs) returns (reply: H.AppendReply)
      requires Valid() && Numbered(args.entries, args.prevLogIndex)
      modifies this
      ensures Valid() && (Abs(), reply) == H.AppendEntries(old(Abs()), args)
    {
      if role == H.Dead {
        return H.AppendReply(0, false, 0, 0);
      }
      if args.term > currentTerm {
        BecomeFollower(args.term);
      }
      if args.term != currentTerm {
        return H.AppendReply(currentTerm, false, 0, 0);
      }
      role := H.Follower;
      hide MatchLen, RunStart, Merge;
      if args.prevLogIndex < First(log) {
        return H.AppendReply(0, false, 0, 0);
      }
      if args.prevLogIndex < NextIndex(log) && args.prevLogTerm == TermAt(log, args.prevLogIndex) {
        AcceptEntries(args);
        reply := H.AppendReply(currentTerm, true, 0, 0);
      } else if args.prevLogIndex >= NextIndex(log) {
        reply := H.AppendReply(currentTerm, false, NextIndex(log), -1);
      } else {
        var conflict := FindConflict(args.prevLogIndex);
        reply := H.AppendReply(currentTerm, false, conflict, TermAt(log, args.prevLogIndex));
      }
    }

    // Counts the peers known to hold index `i`, this one included.
    method CountHolders(i: int) returns (count: nat)
      requires Valid()
      ensures count == |H.Holders(me, matchIndex, i)|
    {
      count := 1;
      var j := 0;
      ghost var counted: set<nat> := {me};
      while j < peers
        invariant 0 <= j <= peers && me in counted && count == |counted|
        invariant forall q: nat :: q in counted <==> q == me || (q < j && matchIndex[q] >= i)
      {
        if j != me && matchIndex[j] >= i {
          count := count + 1;
          counted := counted + {j};
        }
        j := j + 1;
      }
      assert counted == H.Holders(me, matchIndex, i);
    }

    method AdvanceCommit()
      requires Valid() && First(log) <= commitIndex + 1
      modifies this`commitIndex
      ensures commitIndex == H.CommitScan(old(Abs()), old(commitIndex) + 1, old(commitIndex))
    {
      var i := commitIndex + 1;
      while i < NextIndex(log)
        invariant old(commitIndex) < i && First(log) <= i
        invariant Valid()
        invariant H.CommitScan(old(Abs()), old(commitIndex) + 1, old(commitIndex)) == H.CommitScan(old(Abs()), i, commitIndex)
        decreases NextIndex(log) - i
      {
        if TermAt(log, i) == currentTerm {
          var count := CountHolders(i);
          if count * 2 >= peers + 1 {
            commitIndex := i;
          } else {
            break;
          }
        }
        i := i + 1;
      }
    }

    // The leader's scan for the last entry of the conflicting term before `prev`.
    method FindLastWithTerm(prev: int, term: int) returns (last: int)
      requires Valid() && prev <= NextIndex(log)
      ensures last == LastWithTerm(log, prev - 1, term)
    {
      var i := prev - 1;
      while i >= First(log)
        invariant i < NextIndex(log) && i <= prev - 1
        invariant LastWithTerm(log, prev - 1, term) == LastWithTerm(log, i, term)
        decreases i - First(log)
      {
        if TermAt(log, i) == term {
          return i;
        } else if TermAt(log, i) < term {
          return -1;
        }
        i := i - 1;
      }
      last := -1;
    }

    method HandleAppendReply(server: nat, args: H.AppendArgs, reply: H.AppendReply) returns (again: bool)
      requires Valid() && (role == H.Leader && currentTerm == args.term ==> H.CanHandle(Abs(), server, args))
      modifies this
      ensures Valid() && (Abs(), again) == H.AppendResponse(old(Abs()), server, args, reply)
      // a leader that hears of a larger term follows it, and sends again exactly after a refusal in its own term
      ensures old(role) == H.Leader && old(currentTerm) == args.term && reply.term > args.term ==>
        role == H.Follower && currentTerm == reply.term && voteFor == H.NONE
      ensures again <==> old(role) == H.Leader && old(currentTerm) == args.term == reply.term && !reply.success
    {
      if role == H.Leader && currentTerm == args.term {
        if reply.term == currentTerm {
          if reply.success {
            matchIndex := matchIndex[server := Max(matchIndex[server], args.prevLogIndex + |args.entries|)];
            nextIndex := nextIndex[server := matchIndex[server] + 1];
            AdvanceCommit();
          } else {
            var last := -1;
            if reply.conflictTerm > 0 {
              last := FindLastWithTerm(args.prevLogIndex, reply.conflictTerm);
            }
            if last > 0 {
              nextIndex := nextIndex[server := last + 1];
            } else {
              nextIndex := nextIndex[server := Max(reply.conflictIndex, matchIndex[server] + 1)];
            }
            return true;
          }
        } else if reply.term > currentTerm {
          BecomeFollower(reply.term);
        }
      }
      return false;
    }

    method TakeCommitted() returns (entries: seq<Entry>)
      requires Valid() && First(log) <= lastApplied + 1 && commitIndex < NextIndex(log)
      modifies this`lastApplied
      ensures entries == H.ToApply(old(Abs()))
      // all that is committed and not applied yet, from the next index on
      ensures |entries| == Max(0, commitIndex - old(lastApplied))
      ensures lastApplied == Max(old(lastApplied), commitIndex)
      ensures Valid() && Abs() == H.Apply(old(Abs()))
    {
      entries := [];
      if lastApplied < commitIndex {
        entries := log[lastApplied + 1 - First(log)..commitIndex + 1 - First(log)];
        lastApplied := Max(lastApplied, commitIndex);
      }
    }

    method Kill()
      requires Valid()
      modifies this`role
      ensures Valid() && Abs() == H.Kill(old(Abs()))
    {
      role := H.Dead;
    }
  }
}
