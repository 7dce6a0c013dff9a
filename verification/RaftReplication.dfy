/** The replication steps keep the invariant: a leader grows its log, followers accept stretches of it,
    and both commit only what a majority holds.
 */
module RaftReplication {
  import opened Basics
  import opened RaftLog
  import opened RaftHandlers
  import opened RaftProtocol
  import opened RaftInvariant
  import opened RaftFrame
  import opened RaftSteps
  import opened RaftLate

  // ---------------------------------------------------------------- the leader appends and sends

  lemma ProposeInv(st: State, i: nat, c: Command)
    requires Inv(st) && i < |st.servers| && |st.servers[i].log| > 0
    ensures Inv(Propose(st, i, c)) && Grows(st.h, Propose(st, i, c).h)
  {
    hide LogOk, LeaderOk, Certified, VotersKept, NetworkOk, HistoryOk, PeersKept, CandidatesOk, CountsOk, CallsOk,
      KeepsOwn, LagOk, NextOk, PeerSources, StartSources;
    var s, st' := st.servers[i], Propose(st, i, c);
    if s.role == Leader {
      ProposeMoves(st, i, c);
      ProposeHistory(st, i, c);
      ProposeServer(st, i, c);
      ProposeKept(st, i, c);
      ProposeCandidates(st, i, c);
      ProposeLag(st, i, c);
      ProposeSources(st, i, c);
      SameNext(st, st', i);
      KeepsInv(st, st', i);
    } else {
      assert st'.servers == st.servers;
    }
  }

  lemma ProposeMoves(st: State, i: nat, c: Command)
    requires i < |st.servers| && ServerOk(st.h, |st.servers|, i, st.servers[i]) && st.servers[i].role == Leader
    ensures Moves(st, Propose(st, i, c), i)
  {
  }

  lemma ProposeHistory(st: State, i: nat, c: Command)
    requires HistoryOk(st.h, |st.servers|) && i < |st.servers| && ServerOk(st.h, |st.servers|, i, st.servers[i])
    requires st.servers[i].role == Leader && Moves(st, Propose(st, i, c), i)
    ensures HistoryOk(Propose(st, i, c).h, |st.servers|)
  {
    hide LogOk, Certified, Agree, ElectionOk;
    var n, s, h' := |st.servers|, st.servers[i], Propose(st, i, c).h;
    forall u | u in h'.elections ensures ElectionOk(h', n, u) {
      if u == s.currentTerm {
        GrownElection(st, i, c);
      } else {
        GrowElection(st.h, h', n, u);
      }
    }
    forall u, v | (u, v) in h'.votes ensures LogOk(h', h'.votes[(u, v)].log) {
      GrowLogOk(st.h, h', st.h.votes[(u, v)].log);
    }
  }

  lemma GrownElection(st: State, i: nat, c: Command)
    requires HistoryOk(st.h, |st.servers|) && i < |st.servers| && ServerOk(st.h, |st.servers|, i, st.servers[i])
    requires st.servers[i].role == Leader && Grows(st.h, Propose(st, i, c).h)
    ensures st.servers[i].currentTerm in Propose(st, i, c).h.elections
    ensures ElectionOk(Propose(st, i, c).h, |st.servers|, st.servers[i].currentTerm)
  {
    hide LogOk, Certified, Agree;
    var t, h' := st.servers[i].currentTerm, Propose(st, i, c).h;
    assert ElectionOk(st.h, |st.servers|, t);
    GrowLogOk(st.h, h', st.h.elections[t].log);
    GrownLogOk(st, i, c);
  }

  lemma ExtendLogOk(h: History, h': History, log: seq<Entry>, e: Entry)
    requires Grows(h, h') && LogOk(h, log) && e.term >= 1 && e.index == |log|
    requires e.term in h'.leaderLog && h'.leaderLog[e.term] == log + [e]
    ensures LogOk(h', log + [e])
  {
    var log' := log + [e];
    forall k | 1 <= k < |log'|
      ensures log'[k].term >= 1 && log'[k].term in h'.leaderLog && Agree(log', h'.leaderLog[log'[k].term], k)
    {
      if k < |log| {
        assert Agree(log, h.leaderLog[log[k].term], k);
      }
    }
  }

  lemma GrownLogOk(st: State, i: nat, c: Command)
    requires HistoryOk(st.h, |st.servers|) && i < |st.servers| && ServerOk(st.h, |st.servers|, i, st.servers[i])
    requires st.servers[i].role == Leader && Grows(st.h, Propose(st, i, c).h)
    ensures LogOk(Propose(st, i, c).h, Propose(st, i, c).servers[i].log)
  {
    hide Certified, HistoryOk, LogOk, Grows;
    var s, h' := st.servers[i], Propose(st, i, c).h;
    ElectionFacts(st.h, |st.servers|, s.currentTerm);
    LogShape(st.h, s.log);
    ExtendLogOk(st.h, h', s.log, Entry(c, s.currentTerm, |s.log|));
  }

  lemma ProposeLeader(st: State, i: nat, c: Command)
    requires i < |st.servers| && LeaderOk(st.h, |st.servers|, i, st.servers[i]) && |st.servers[i].log| > 0
    requires st.servers[i].role == Leader && Grows(st.h, Propose(st, i, c).h)
    ensures LeaderOk(Propose(st, i, c).h, |st.servers|, i, Propose(st, i, c).servers[i])
  {
  }

  lemma ProposeCertified(st: State, i: nat, c: Command)
    requires i < |st.servers| && ServerOk(st.h, |st.servers|, i, st.servers[i])
    requires st.servers[i].role == Leader && Grows(st.h, Propose(st, i, c).h)
    ensures var s', h' := Propose(st, i, c).servers[i], Propose(st, i, c).h;
      Certified(h', |st.servers|, s'.log, s'.commitIndex)
  {
    hide LogOk, LeaderOk, Certified, Grows;
    var n, s, s', h' := |st.servers|, st.servers[i], Propose(st, i, c).servers[i], Propose(st, i, c).h;
    GrowCertified(st.h, h', n, s.log, s.commitIndex);
    CertifiedLonger(h', n, s.log, s'.log, s.commitIndex);
  }

  // A leader is not ahead of its term.
  lemma LeaderInTerm(h: History, n: nat, i: nat, s: Server)
    requires HistoryOk(h, n) && LeaderOk(h, n, i, s)
    ensures !Ahead(s.log, s.currentTerm)
  {
    hide LogOk;
    ElectionFacts(h, n, s.currentTerm);
  }

  lemma ProposeLag(st: State, i: nat, c: Command)
    requires i < |st.servers| && |st.servers[i].log| > 0 && st.servers[i].role == Leader
    ensures LagOk(Propose(st, i, c).h, i, Propose(st, i, c).servers[i])
  {
  }

  lemma ProposeSources(st: State, i: nat, c: Command)
    requires i < |st.servers| && ServerOk(st.h, |st.servers|, i, st.servers[i]) && st.servers[i].role == Leader
    requires PeerSources(st.h, i, st.servers[i]) && Moves(st, Propose(st, i, c), i)
    ensures PeerSources(Propose(st, i, c).h, i, Propose(st, i, c).servers[i])
  {
    hide LogOk, LeaderOk, Certified, Source;
    var s, s', h' := st.servers[i], Propose(st, i, c).servers[i], Propose(st, i, c).h;
    forall t, k | 0 <= k < |s'.log| && s'.log[k].term < t && Lacks(h', t, i, s'.log[k].term)
      ensures Source(h', t, s'.log[k].term, s'.currentTerm)
    {
      assert t <= s.currentTerm && s'.log[k] == s.log[k];
      QuietSource(st, Propose(st, i, c), i, t, s.log[k].term, s.currentTerm, s.currentTerm);
    }
  }

  lemma ProposeServer(st: State, i: nat, c: Command)
    requires HistoryOk(st.h, |st.servers|) && i < |st.servers| && ServerOk(st.h, |st.servers|, i, st.servers[i])
    requires st.servers[i].role == Leader && Grows(st.h, Propose(st, i, c).h)
    ensures ServerOk(Propose(st, i, c).h, |st.servers|, i, Propose(st, i, c).servers[i])
  {
    hide LogOk, LeaderOk, Certified, HistoryOk, TermsBelow, Grows;
    GrownLogOk(st, i, c);
    ProposeLeader(st, i, c);
    ProposeCertified(st, i, c);
  }

  lemma ProposeKept(st: State, i: nat, c: Command)
    requires HistoryOk(st.h, |st.servers|) && PeersKept(st.h, st.servers) && i < |st.servers|
    requires ServerOk(st.h, |st.servers|, i, st.servers[i]) && st.servers[i].role == Leader
    requires Grows(st.h, Propose(st, i, c).h)
    ensures KeepsOwn(Propose(st, i, c).h, i, Propose(st, i, c).servers[i])
  {
    hide LogOk, Certified, HistoryOk, Grows;
    var s, s', h' := st.servers[i], Propose(st, i, c).servers[i], Propose(st, i, c).h;
    LeaderInTerm(st.h, |st.servers|, i, s);
    forall t, k | InTerm(h', t, k) && Acked(h', t, i, k) ensures Kept(h', s'.log, t, k, Reach(s') + 1) {
      if t != s.currentTerm {
        AckedInTerm(st.h, |st.servers|, t, i, k);
        GrowKept(st.h, h', s.log, t, k, s.currentTerm + 1, s.currentTerm + 1);
      }
    }
  }

  lemma AckedInTerm(h: History, n: nat, t: int, v: nat, j: int)
    requires HistoryOk(h, n) && Acked(h, t, v, j) && 0 <= j
    ensures InTerm(h, t, j)
  {
  }

  lemma ProposeCandidates(st: State, i: nat, c: Command)
    requires i < |st.servers| && |st.servers[i].log| > 0 && st.servers[i].role == Leader
    requires CandidatesOk(st.h, st.servers) && CountsOk(st) && CallsOk(st)
    ensures var st' := Propose(st, i, c);
      CandidatesOk(st'.h, st'.servers) && CountsOk(st') && CallsOk(st')
  {
  }

  // What a leader sends is a stretch of its log that reaches the end, so it covers its commit index.
  lemma SentOk(h: History, n: nat, i: nat, s: Server, peer: nat, captured: int)
    requires ServerOk(h, n, i, s) && s.role == Leader && peer < n
    ensures CanSend(s, peer)
    ensures Carries(h, n, MakeAppend(s, peer, captured), s.currentTerm)
  {
    hide Certified;
    var a := MakeAppend(s, peer, captured);
    assert s.log[..a.prevLogIndex + |a.entries| + 1] == s.log;
  }

  ghost function Delayed(st: State): State {
    st.(h := st.h.(late := true))
  }

  lemma DelayedInv(st: State, i: nat)
    requires Inv(st) && i < |st.servers| <= 4
    ensures Inv(Delayed(st))
  {
    hide LogOk, LeaderOk, Certified, VotersKept, PeersKept, NetworkOk, HistoryOk, LagOk, NextOk, PeerSources,
      StartSources, KeepsOwn, CandidatesOk, CountsOk, CallsOk, MessageOk;
    var st' := Delayed(st);
    assert Moves(st, st', i);
    DelayedCandidates(st);
    DelayedHistory(st.h, |st.servers|);
    DelayedServer(st.h, |st.servers|, i, st.servers[i]);
    OwnKept(st, st', i);
    SameLogSources(st, st', i);
    SameNext(st, st', i);
    KeepsInv(st, st', i);
  }

  lemma DelayedCandidates(st: State)
    requires CandidatesOk(st.h, st.servers) && CountsOk(st) && CallsOk(st)
    ensures CandidatesOk(Delayed(st).h, st.servers) && CountsOk(Delayed(st)) && CallsOk(Delayed(st))
  {
  }

  lemma DelayedHistory(h: History, n: nat)
    requires HistoryOk(h, n)
    ensures HistoryOk(h.(late := true), n)
  {
    hide LogOk;
    GrowHistory(h, h.(late := true), n);
  }

  lemma DelayedServer(h: History, n: nat, i: nat, s: Server)
    requires ServerOk(h, n, i, s) && LagOk(h, i, s)
    ensures ServerOk(h.(late := true), n, i, s) && LagOk(h.(late := true), i, s)
  {
    hide LogOk, Certified;
    GrowLogOk(h, h.(late := true), s.log);
    GrowCertified(h, h.(late := true), n, s.log, s.commitIndex);
  }

  // A send in time carries the leader's current log; a late one is allowed in a cluster of at most four peers.
  lemma ReplicateInv(st: State, i: nat, peer: nat, captured: int)
    requires Inv(st) && i < |st.servers| && peer < |st.servers| && peer != i && st.servers[i].role == Leader
    requires captured in st.h.elections && st.h.elections[captured].leader == i
    requires captured == st.servers[i].currentTerm || |st.servers| <= 4
    ensures CanSend(st.servers[i], peer)
    ensures Inv(Replicate(st, i, peer, captured)) && Grows(st.h, Replicate(st, i, peer, captured).h)
  {
    hide LogOk, LeaderOk, Certified, VotersKept, PeersKept, NetworkOk, CandidatesOk, CountsOk, CallsOk, HistoryOk,
      Carries, CanSend, LagOk, NextOk, PeerSources, StartSources, SourcesOk, MakeAppend;
    var s := st.servers[i];
    SentOk(st.h, |st.servers|, i, s, peer, captured);
    if captured == s.currentTerm {
      TimelySent(st, i, peer);
      SendInv(st, AppendRequest(peer, MakeAppend(s, peer, captured)));
    } else {
      DelayedInv(st, i);
      LateSent(st, i, peer, captured);
      SendInv(Delayed(st), AppendRequest(peer, MakeAppend(s, peer, captured)));
    }
  }

  lemma TimelySent(st: State, i: nat, peer: nat)
    requires i < |st.servers| && peer != i && ServerOk(st.h, |st.servers|, i, st.servers[i]) && CanSend(st.servers[i], peer)
    requires
      var s := st.servers[i];
      Carries(st.h, |st.servers|, MakeAppend(s, peer, s.currentTerm), s.currentTerm)
    ensures
      var s := st.servers[i];
      MessageOk(st.h, st.servers, AppendRequest(peer, MakeAppend(s, peer, s.currentTerm)))
  {
    hide LogOk, Certified, LeaderOk, Carries;
  }

  lemma LateSent(st: State, i: nat, peer: nat, captured: int)
    requires i < |st.servers| && peer < |st.servers| && peer != i && ServerOk(st.h, |st.servers|, i, st.servers[i])
    requires st.servers[i].role == Leader && CanSend(st.servers[i], peer) && NextOk(st.h, st.servers)
    requires captured in st.h.elections && st.h.elections[captured].leader == i && captured != st.servers[i].currentTerm
    requires Carries(st.h, |st.servers|, MakeAppend(st.servers[i], peer, captured), st.servers[i].currentTerm)
    ensures MessageOk(Delayed(st).h, st.servers, AppendRequest(peer, MakeAppend(st.servers[i], peer, captured)))
  {
    hide LogOk, Certified, Carries;
    var s, a := st.servers[i], MakeAppend(st.servers[i], peer, captured);
    assert NextAt(st.h, st.servers, i, peer);
    GrowCarries(st.h, Delayed(st).h, |st.servers|, a, s.currentTerm);
    assert LateArgs(Delayed(st).h, st.servers, peer, a, s.currentTerm);
  }

  // ---------------------------------------------------------------- a follower accepts

  lemma {:induction false} MatchLenMeaning(log: seq<Entry>, at: int, entries: seq<Entry>)
    requires Contiguous(log) && First(log) <= at
    ensures var end := at + MatchLen(log, at, entries);
      && (forall q :: at <= q < end ==> InLog(log, q) && TermAt(log, q) == entries[q - at].term)
      && (end - at < |entries| && InLog(log, end) ==> TermAt(log, end) != entries[end - at].term)
    decreases |entries|
  {
    if !(entries == [] || at >= NextIndex(log) || TermAt(log, at) != entries[0].term) {
      MatchLenMeaning(log, at + 1, entries[1..]);
      var end := at + 1 + MatchLen(log, at + 1, entries[1..]);
      forall q | at <= q < end ensures InLog(log, q) && TermAt(log, q) == entries[q - at].term {
        if q > at {
          assert entries[q - at] == entries[1..][q - (at + 1)];
        }
      }
    }
  }

  // The logs agree up to `p` and then differ, or the first one ends.
  ghost predicate PartAt(log: seq<Entry>, l: seq<Entry>, p: int) {
    0 < p < |l| && Agree(log, l, p - 1) && (p >= |log| || log[p].term != l[p].term)
  }

  // The outcome of a merge with the stretch of `l` up to `k`: unchanged, or cut where they part and equal to `l`.
  ghost predicate Merged(log: seq<Entry>, l: seq<Entry>, k: int, merged: seq<Entry>) {
    && 0 <= k < |l|
    && ((merged == log && Agree(log, l, k)) || (merged == l[..k + 1] && exists p :: p <= k && PartAt(log, l, p)))
  }

  lemma {:induction false} MergeMeaning(h: History, n: nat, log: seq<Entry>, a: AppendArgs, t: int)
    requires HistoryOk(h, n) && LogOk(h, log) && Carries(h, n, a, t) && HasPrev(log, a.prevLogIndex, a.prevLogTerm)
    ensures Merged(log, h.leaderLog[t], a.prevLogIndex + |a.entries|, Merge(log, a.prevLogIndex, a.entries))
    ensures Agree(log, h.leaderLog[t], a.prevLogIndex)
  {
    hide LogOk, Certified, HistoryOk, Merge, Merged, PartAt, Agree, MatchLen;
    var l := h.leaderLog[t];
    ElectionFacts(h, n, t);
    LogShape(h, log);
    assert StretchOf(l, a.prevLogIndex, a.entries);
    LogMatching(h, log, l, a.prevLogIndex);
    MatchReach(h, log, l, a.prevLogIndex, a.entries);
    MergeShape(log, l, a.prevLogIndex, a.entries);
  }

  ghost predicate StretchOf(l: seq<Entry>, prev: int, entries: seq<Entry>) {
    0 <= prev && prev + |entries| < |l| && forall k :: 0 <= k < |entries| ==> entries[k] == l[prev + 1 + k]
  }

  lemma {:induction false} MatchEnd(log: seq<Entry>, prev: int, entries: seq<Entry>)
    requires Contiguous(log) && First(log) == 0 && 0 <= prev < |log|
    ensures var m := MatchLen(log, prev + 1, entries);
      && prev + m < |log|
      && (m > 0 ==> log[prev + m].term == entries[m - 1].term)
      && (m < |entries| && prev + 1 + m < |log| ==> log[prev + 1 + m].term != entries[m].term)
  {
    hide MatchLen;
    var m := MatchLen(log, prev + 1, entries);
    MatchLenMeaning(log, prev + 1, entries);
    assert m > 0 ==> InLog(log, prev + m) && TermAt(log, prev + m) == entries[prev + m - (prev + 1)].term;
  }

  lemma {:induction false} MatchReach(h: History, log: seq<Entry>, l: seq<Entry>, prev: int, entries: seq<Entry>)
    requires LogOk(h, log) && LogOk(h, l) && StretchOf(l, prev, entries)
    requires prev < |log| && log[prev].term == l[prev].term
    ensures Contiguous(log) && First(log) == 0
    ensures var m := MatchLen(log, prev + 1, entries);
      && Agree(log, l, prev + m)
      && (m < |entries| ==> PartAt(log, l, prev + 1 + m))
  {
    hide LogOk, MatchLen;
    LogShape(h, log);
    var m := MatchLen(log, prev + 1, entries);
    MatchEnd(log, prev, entries);
    assert m > 0 ==> entries[m - 1] == l[prev + 1 + (m - 1)];
    LogMatching(h, log, l, prev + m);
    assert m < |entries| ==> entries[m] == l[prev + 1 + m];
  }

  lemma {:induction false} MergeShape(log: seq<Entry>, l: seq<Entry>, prev: int, entries: seq<Entry>)
    requires Contiguous(log) && First(log) == 0 && StretchOf(l, prev, entries) && prev < |log|
    requires var m := MatchLen(log, prev + 1, entries);
      && Agree(log, l, prev + m)
      && (m < |entries| ==> PartAt(log, l, prev + 1 + m))
    ensures Merged(log, l, prev + |entries|, Merge(log, prev, entries))
  {
    hide MatchLen, Contiguous, PartAt, Agree, TermAt;
    var m := MatchLen(log, prev + 1, entries);
    if m < |entries| {
      StretchJoins(log, l, prev, entries, m);
      assert PartAt(log, l, prev + 1 + m) && prev + 1 + m <= prev + |entries|;
    }
  }

  // The shared part of a log and the rest of a stretch of the leader's log make up the leader's log so far.
  lemma StretchJoins(log: seq<Entry>, l: seq<Entry>, prev: int, entries: seq<Entry>, m: int)
    requires StretchOf(l, prev, entries) && 0 <= m < |entries| && Agree(log, l, prev + m)
    ensures log[..prev + 1 + m] + entries[m..] == l[..prev + |entries| + 1]
  {
    var p := prev + 1 + m;
    assert log[..p] == l[..p];
    assert entries[m..] == l[p..prev + |entries| + 1];
  }

  // A merge keeps what the log shares with the leader.
  lemma MergeKeeps(log: seq<Entry>, l: seq<Entry>, k: int, merged: seq<Entry>, p: seq<Entry>, i: int)
    requires Merged(log, l, k, merged) && Agree(log, p, i) && Agree(l, p, i)
    ensures Agree(merged, p, i)
  {
    if merged != log {
      var q :| q <= k && PartAt(log, l, q);
      PartsLater(log, l, p, q, i);
    }
  }

  // Two logs part only behind what they share with a third one.
  lemma PartsLater(log: seq<Entry>, l: seq<Entry>, p: seq<Entry>, q: int, i: int)
    requires PartAt(log, l, q) && Agree(log, p, i) && Agree(l, p, i)
    ensures q > i
  {
  }

  lemma MergedReaches(log: seq<Entry>, l: seq<Entry>, k: int, merged: seq<Entry>)
    requires Merged(log, l, k, merged)
    ensures Agree(merged, l, k)
  {
  }

  lemma MergedLogOk(h: History, n: nat, log: seq<Entry>, t: int, k: int, merged: seq<Entry>)
    requires HistoryOk(h, n) && t in h.elections && LogOk(h, log)
    requires Merged(log, h.leaderLog[t], k, merged)
    ensures LogOk(h, merged)
  {
    assert t in h.leaderLog;
    hide HistoryOk, LogOk;
    ElectionFacts(h, n, t);
    if merged != log {
      PrefixLogOk(h, h.leaderLog[t], k);
    }
  }

  lemma PrefixLogOk(h: History, l: seq<Entry>, k: int)
    requires LogOk(h, l) && 0 <= k < |l|
    ensures LogOk(h, l[..k + 1])
  {
    var merged := l[..k + 1];
    forall i | 1 <= i < |merged|
      ensures merged[i].term >= 1 && merged[i].term in h.leaderLog && Agree(merged, h.leaderLog[merged[i].term], i)
    {
      assert Agree(l, h.leaderLog[l[i].term], i);
    }
  }

  // What the peer acknowledged before is still there after the merge.
  lemma MergedKept(h: History, n: nat, log: seq<Entry>, t: int, k: int, merged: seq<Entry>, t0: int, i: int)
    requires HistoryOk(h, n) && t in h.elections && Merged(log, h.leaderLog[t], k, merged)
    requires InTerm(h, t0, i) && t0 <= t && Kept(h, log, t0, i, t + 1)
    ensures Kept(h, merged, t0, i, t + 1)
  {
    hide LogOk;
    ElectionFacts(h, n, t);
    if Agree(log, h.leaderLog[t0], i) {
      if t0 == t {
        MergeKeeps(log, h.leaderLog[t], k, merged, h.leaderLog[t], i);
      } else if Agree(h.elections[t].log, h.leaderLog[t0], i) {
        assert Agree(h.leaderLog[t], h.leaderLog[t0], i);
        MergeKeeps(log, h.leaderLog[t], k, merged, h.leaderLog[t0], i);
      }
    }
  }

  // The committed prefix survives a merge: every later leader holds what was chosen.
  lemma MergedCertified(h: History, n: nat, log: seq<Entry>, t: int, k: int, merged: seq<Entry>, c: int)
    requires HistoryOk(h, n) && VotersKept(h) && t in h.elections && Merged(log, h.leaderLog[t], k, merged)
    requires LogOk(h, log) && !Ahead(log, t) && Certified(h, n, log, c) && 0 <= c < |log|
    ensures Certified(h, n, merged, c) && c < |merged|
  {
    hide LogOk, VotersKept, HistoryOk;
    if c != 0 {
      var i :| 0 < c <= i < |log| && Chosen(h, n, log[i].term, i) && Agree(log, h.leaderLog[log[i].term], i);
      var t0 := log[i].term;
      LastTermLargest(h, n, log, i);
      ElectionFacts(h, n, t);
      if t0 < t {
        ChosenStays(h, n, t0, i, t);
      }
      assert Agree(h.leaderLog[t], h.leaderLog[t0], i);
      MergeKeeps(log, h.leaderLog[t], k, merged, h.leaderLog[t0], i);
      assert merged[i] == log[i];
    }
  }

  ghost function Accepted(st: State, i: nat, a: AppendArgs): State
    requires i < |st.servers| && Contiguous(st.servers[i].log) && InLog(st.servers[i].log, a.prevLogIndex)
  {
    var s, k := Accept(st.servers[i], a), a.prevLogIndex + |a.entries|;
    With(st, i, s).(h := if HoldsTerm(st.h, s.log, a.term, k) then RecordAck(st.h, i, a.term, k) else st.h)
  }

  /** The peer is about to accept `a`, which carries the log of the leader of `t`: its own term or, if the message is late,
      a later one. */
  ghost predicate Accepting(st: State, i: nat, a: AppendArgs, t: int) {
    && i < |st.servers| && ServerOk(st.h, |st.servers|, i, st.servers[i])
    && Carries(st.h, |st.servers|, a, t)
    && var s := st.servers[i];
       && s.role == Follower && s.currentTerm == a.term && Contiguous(s.log) && InLog(s.log, a.prevLogIndex)
       && HasPrev(s.log, a.prevLogIndex, a.prevLogTerm)
       && a.term <= t && (a.term < t ==> a.prevLogIndex == |st.h.elections[t].log| - 1)
  }

  // If the log changes, it was not ahead of the leader that the message is from, who covers all that the peer skips.
  ghost predicate Advances(st: State, i: nat, a: AppendArgs, t: int)
    requires Accepting(st, i, a, t)
  {
    var log := st.servers[i].log;
    Merge(log, a.prevLogIndex, a.entries) != log ==>
      !Ahead(log, t) && (a.term < t ==> st.h.late && Covers(st.h, a.term, t))
  }

  lemma AcceptInv(st: State, i: nat, a: AppendArgs, t: int)
    requires Inv(st) && Accepting(st, i, a, t) && Advances(st, i, a, t)
    ensures Inv(Accepted(st, i, a)) && Grows(st.h, Accepted(st, i, a).h)
  {
    hide LogOk, LeaderOk, Certified, VotersKept, NetworkOk, HistoryOk, PeersKept, CandidatesOk, CountsOk, CallsOk,
      KeepsOwn, Carries, Merge, Merged, LagOk, NextOk, PeerSources, StartSources, Advances, HoldsTerm;
    var st' := Accepted(st, i, a);
    CarriedTerm(st.h, |st.servers|, a, t);
    AcceptMoves(st, i, a, t);
    AcceptHistory(st, i, a, t);
    AcceptServer(st, i, a, t);
    AcceptKept(st, i, a, t);
    AcceptCandidates(st, i, a, t);
    AcceptLag(st, i, a, t);
    AcceptSources(st, i, a, t);
    KeepsInv(st, st', i);
  }

  lemma AcceptMoves(st: State, i: nat, a: AppendArgs, t: int)
    requires Accepting(st, i, a, t)
    ensures Moves(st, Accepted(st, i, a), i)
  {
    hide LogOk, Certified, LeaderOk, Carries, Merge, HoldsTerm;
  }

  lemma AcceptHistory(st: State, i: nat, a: AppendArgs, t: int)
    requires Accepting(st, i, a, t) && HistoryOk(st.h, |st.servers|) && Moves(st, Accepted(st, i, a), i)
    ensures HistoryOk(Accepted(st, i, a).h, |st.servers|)
  {
    hide LogOk, Certified;
    GrowHistory(st.h, Accepted(st, i, a).h, |st.servers|);
  }

  // The merged log is well-formed and holds all that is committed.
  lemma AcceptLog(st: State, i: nat, a: AppendArgs, t: int)
    requires Accepting(st, i, a, t) && HistoryOk(st.h, |st.servers|) && VotersKept(st.h) && Advances(st, i, a, t)
    ensures var s' := Accept(st.servers[i], a);
      && LogOk(st.h, s'.log) && Certified(st.h, |st.servers|, s'.log, s'.commitIndex)
      && st.servers[i].commitIndex <= s'.commitIndex < |s'.log|
  {
    hide LogOk, Certified, VotersKept, Merge, LeaderOk, HistoryOk, Merged;
    var n, s, h := |st.servers|, st.servers[i], st.h;
    var s' := Accept(s, a);
    var l, k := h.leaderLog[t], a.prevLogIndex + |a.entries|;
    MergeMeaning(h, n, s.log, a, t);
    MergedLogOk(h, n, s.log, t, k, s'.log);
    MergedReaches(s.log, l, k, s'.log);
    LogShape(h, s'.log);
    if s'.log != s.log {
      MergedCertified(h, n, s.log, t, k, s'.log, s.commitIndex);
    }
    if a.leaderCommit > s.commitIndex {
      CertifiedLonger(h, n, l[..k + 1], s'.log, a.leaderCommit);
    }
  }

  lemma AcceptServer(st: State, i: nat, a: AppendArgs, t: int)
    requires Accepting(st, i, a, t) && HistoryOk(st.h, |st.servers|) && VotersKept(st.h) && Advances(st, i, a, t)
    requires Grows(st.h, Accepted(st, i, a).h)
    ensures ServerOk(Accepted(st, i, a).h, |st.servers|, i, Accepted(st, i, a).servers[i])
  {
    hide LogOk, Certified, VotersKept, Merge, LeaderOk, HistoryOk, Carries, HoldsTerm;
    var n, s, h, h' := |st.servers|, st.servers[i], st.h, Accepted(st, i, a).h;
    var s' := Accept(s, a);
    AcceptLog(st, i, a, t);
    GrowCertified(h, h', n, s'.log, s'.commitIndex);
    GrowLogOk(h, h', s'.log);
  }

  // After a change the peer reaches exactly to the leader that the message is from.
  lemma AcceptReach(st: State, i: nat, a: AppendArgs, t: int)
    requires Accepting(st, i, a, t) && HistoryOk(st.h, |st.servers|)
    requires Accept(st.servers[i], a).log != st.servers[i].log && !Ahead(st.servers[i].log, t)
    ensures Reach(st.servers[i]) <= t == Reach(Accept(st.servers[i], a))
    ensures Accept(st.servers[i], a).log <= st.h.leaderLog[t]
  {
    hide LogOk, Certified, Merge, LeaderOk, HistoryOk;
    var n, s, h := |st.servers|, st.servers[i], st.h;
    MergeMeaning(h, n, s.log, a, t);
    ElectionFacts(h, n, t);
  }

  lemma AcceptKept(st: State, i: nat, a: AppendArgs, t: int)
    requires Accepting(st, i, a, t) && HistoryOk(st.h, |st.servers|) && PeersKept(st.h, st.servers) && Advances(st, i, a, t)
    requires Moves(st, Accepted(st, i, a), i)
    ensures KeepsOwn(Accepted(st, i, a).h, i, Accepted(st, i, a).servers[i])
  {
    hide LogOk, Certified, Merge, LeaderOk, Merged, HistoryOk, Carries;
    var n, s, h, h' := |st.servers|, st.servers[i], st.h, Accepted(st, i, a).h;
    var s', k := Accept(s, a), a.prevLogIndex + |a.entries|;
    CarriedTerm(h, n, a, t);
    MergeMeaning(h, n, s.log, a, t);
    if s'.log != s.log {
      AcceptReach(st, i, a, t);
    }
    forall u, j | InTerm(h', u, j) && Acked(h', u, i, j) ensures Kept(h', s'.log, u, j, Reach(s') + 1) {
      if Acked(h, u, i, j) {
        AckedInTerm(h, n, u, i, j);
        if s'.log != s.log {
          GrowKept(h, h, s.log, u, j, Reach(s) + 1, t + 1);
          MergedKept(h, n, s.log, t, k, s'.log, u, j);
        }
        GrowKept(h, h', s'.log, u, j, Reach(s') + 1, Reach(s') + 1);
      } else {
        assert Agree(s'.log, h'.leaderLog[u], j);
      }
    }
  }

  lemma AcceptCandidates(st: State, i: nat, a: AppendArgs, t: int)
    requires Accepting(st, i, a, t)
    requires CandidatesOk(st.h, st.servers) && CountsOk(st) && CallsOk(st)
    ensures var st' := Accepted(st, i, a);
      CandidatesOk(st'.h, st'.servers) && CountsOk(st') && CallsOk(st')
  {
    hide LogOk, Certified, Merge, Carries;
  }

  lemma AcceptLag(st: State, i: nat, a: AppendArgs, t: int)
    requires Accepting(st, i, a, t) && HistoryOk(st.h, |st.servers|) && Advances(st, i, a, t)
    requires LagOk(st.h, i, st.servers[i])
    ensures LagOk(Accepted(st, i, a).h, i, Accepted(st, i, a).servers[i])
  {
    hide LogOk, Certified, Merge, LeaderOk, HistoryOk, Carries;
    if Accept(st.servers[i], a).log != st.servers[i].log {
      AcceptReach(st, i, a, t);
    }
  }

  lemma AcceptSources(st: State, i: nat, a: AppendArgs, t: int)
    requires Accepting(st, i, a, t) && HistoryOk(st.h, |st.servers|) && Advances(st, i, a, t)
    requires PeerSources(st.h, i, st.servers[i]) && StartSources(st.h, t) && Moves(st, Accepted(st, i, a), i)
    ensures PeerSources(Accepted(st, i, a).h, i, Accepted(st, i, a).servers[i])
  {
    hide LogOk, Certified, Merge, LeaderOk, HistoryOk, Carries, Source;
    var st' := Accepted(st, i, a);
    var s, s', h := st.servers[i], st'.servers[i], st.h;
    forall u, k | 0 <= k < |s'.log| && s'.log[k].term < u && Lacks(st'.h, u, i, s'.log[k].term)
      ensures Source(st'.h, u, s'.log[k].term, s'.currentTerm)
    {
      if !(k < |s.log| && s.log[k] == s'.log[k]) {
        CarriedSource(st, i, a, t, u, k);
      }
      QuietSource(st, st', i, u, s'.log[k].term, s.currentTerm, s.currentTerm);
    }
  }

  // What comes from the leader of the peer's own term.
  lemma CarriedSource(st: State, i: nat, a: AppendArgs, t: int, u: int, k: nat)
    requires Accepting(st, i, a, t) && HistoryOk(st.h, |st.servers|) && Advances(st, i, a, t) && StartSources(st.h, t)
    requires var s' := Accept(st.servers[i], a);
      k < |s'.log| && s'.log[k].term < u <= a.term && !(k < |st.servers[i].log| && st.servers[i].log[k] == s'.log[k])
    ensures Source(st.h, u, Accept(st.servers[i], a).log[k].term, a.term)
  {
    hide LogOk, Certified, Merge, LeaderOk, HistoryOk;
    var n, s, h := |st.servers|, st.servers[i], st.h;
    AcceptReach(st, i, a, t);
    MergeMeaning(h, n, s.log, a, t);
    ElectionFacts(h, n, t);
    var e := h.elections[t].log;
    assert k < |e| && t == a.term;
    LastTermLargest(h, n, e, k);
  }

  lemma ReceiveInv(st: State, i: nat, a: AppendArgs)
    requires Inv(st) && i < |st.servers| && Contiguous(st.servers[i].log) && AppendRequest(i, a) in st.network
    ensures Inv(Receive(st, i, a)) && Grows(st.h, Receive(st, i, a).h)
  {
    hide LogOk, LeaderOk, Certified, VotersKept, PeersKept, CandidatesOk, CountsOk, CallsOk, Merge, RunStart, Inv,
      Reject, HasPrev, MessageOk;
    var s := st.servers[i];
    var st' := Receive(st, i, a);
    var r := AppendEntries(s, a).1;
    ReceivedTerm(st, i, a);
    if s.role == Dead {
      RefusedOk(st, i, a, r);
      SendInv(st, AppendAnswer(a.leaderId, i, a, r));
      assert st.servers[i := s] == st.servers;
    } else {
      var s1 := Catchup(s, a.term);
      CatchupInv(st, i, a.term);
      var st1 := With(st, i, s1);
      if a.term != s1.currentTerm {
        RefusedOk(st1, i, a, r);
        SendInv(st1, AppendAnswer(a.leaderId, i, a, r));
      } else {
        var s2 := s1.(role := Follower);
        var st2 := With(st1, i, s2);
        StepDownInv(st1, i, s2);
        assert st2.servers == st.servers[i := s2];
        if a.prevLogIndex >= First(s2.log) && HasPrev(s2.log, a.prevLogIndex, a.prevLogTerm) {
          ReceiveAccepts(st2, i, a);
          var st3 := Accepted(st2, i, a);
          assert st3.servers == st.servers[i := Accept(s2, a)];
          SendInv(st3, AppendAnswer(a.leaderId, i, a, r));
        } else {
          if a.prevLogIndex >= First(s2.log) {
            RejectBounds(s2, a.prevLogIndex, a.prevLogTerm);
          }
          RefusedOk(st2, i, a, r);
          SendInv(st2, AppendAnswer(a.leaderId, i, a, r));
        }
      }
    }
  }

  lemma ReceivedTerm(st: State, i: nat, a: AppendArgs)
    requires Inv(st) && AppendRequest(i, a) in st.network
    ensures a.term in st.h.elections && st.h.elections[a.term].leader == a.leaderId && a.leaderId != i
    ensures a.term >= 1 && 0 <= a.leaderId < |st.servers| && (i < |st.servers| ==> st.servers[i].currentTerm >= 0)
  {
    hide LogOk, LeaderOk, Certified, VotersKept, PeersKept, CandidatesOk, CountsOk, CallsOk, LagsOk, SourcesOk, NextOk;
    assert i < |st.servers| ==> ServerOk(st.h, |st.servers|, i, st.servers[i]);
    assert MessageOk(st.h, st.servers, AppendRequest(i, a));
    assert ElectionOk(st.h, |st.servers|, a.term);
  }

  // The leader that sent a late message is in a later term.
  lemma SenderMovedOn(st: State, a: AppendArgs, t: int)
    requires Inv(st) && a.term < t && Carries(st.h, |st.servers|, a, t)
    ensures 0 <= a.leaderId < |st.servers| && a.term < st.servers[a.leaderId].currentTerm
  {
    hide LogOk, LeaderOk, Certified, VotersKept, PeersKept, CandidatesOk, CountsOk, CallsOk, LagsOk, SourcesOk,
      NextOk, NetworkOk;
    assert ElectionOk(st.h, |st.servers|, t);
    assert ServerOk(st.h, |st.servers|, a.leaderId, st.servers[a.leaderId]);
  }

  // A refusal promises the leader nothing.
  lemma RefusedOk(st: State, i: nat, a: AppendArgs, r: AppendReply)
    requires Inv(st) && i < |st.servers| && AppendRequest(i, a) in st.network
    requires !r.success && r.term <= st.servers[i].currentTerm && (r.term == a.term ==> r.conflictIndex <= a.prevLogIndex)
    ensures MessageOk(st.h, st.servers, AppendAnswer(a.leaderId, i, a, r))
  {
    hide LogOk, LeaderOk, Certified, VotersKept, PeersKept, CandidatesOk, CountsOk, CallsOk, LagsOk, SourcesOk,
      NextOk, Carries, HistoryOk;
    assert MessageOk(st.h, st.servers, AppendRequest(i, a));
    if !AppendArgsOk(st.h, |st.servers|, a) {
      var t :| LateArgs(st.h, st.servers, i, a, t);
      SenderMovedOn(st, a, t);
    }
  }

  lemma RejectBounds(s: Server, prev: int, prevTerm: int)
    requires Contiguous(s.log) && First(s.log) <= prev && !HasPrev(s.log, prev, prevTerm)
    ensures !Reject(s, prev).success && Reject(s, prev).conflictIndex <= prev && Reject(s, prev).term == s.currentTerm
  {
  }

  // The peer is about to accept the message.
  ghost predicate Matches(st: State, i: nat, a: AppendArgs) {
    && Inv(st) && i < |st.servers| && AppendRequest(i, a) in st.network
    && var s := st.servers[i];
       && s.role == Follower && s.currentTerm == a.term && Contiguous(s.log)
       && First(s.log) <= a.prevLogIndex && HasPrev(s.log, a.prevLogIndex, a.prevLogTerm)
  }

  lemma ReceiveAccepts(st: State, i: nat, a: AppendArgs)
    requires Matches(st, i, a)
    ensures InLog(st.servers[i].log, a.prevLogIndex)
    ensures Inv(Accepted(st, i, a)) && Grows(st.h, Accepted(st, i, a).h)
    ensures MessageOk(Accepted(st, i, a).h, Accepted(st, i, a).servers,
                      AppendAnswer(a.leaderId, i, a, AppendReply(a.term, true, 0, 0)))
  {
    hide LogOk, LeaderOk, Certified, VotersKept, PeersKept, CandidatesOk, CountsOk, CallsOk, LagsOk, SourcesOk,
      NextOk, Carries, HistoryOk, Merge, Accepted, Advances, Covers;
    var s := st.servers[i];
    assert ServerOk(st.h, |st.servers|, i, s);
    assert MessageOk(st.h, st.servers, AppendRequest(i, a));
    if AppendArgsOk(st.h, |st.servers|, a) {
      TimelyAdvances(st, i, a);
      AcceptInv(st, i, a, a.term);
      AcceptedAnswer(st, i, a);
    } else {
      var t :| LateArgs(st.h, st.servers, i, a, t);
      LateAdvances(st, i, a, t);
      AcceptInv(st, i, a, t);
      AcceptMoves(st, i, a, t);
      SenderMovedOn(st, a, t);
      ReceivedTerm(st, i, a);
      assert Accepted(st, i, a).servers[a.leaderId] == st.servers[a.leaderId];
    }
  }

  lemma AcceptedAnswer(st: State, i: nat, a: AppendArgs)
    requires Accepting(st, i, a, a.term) && HistoryOk(st.h, |st.servers|)
    ensures MessageOk(Accepted(st, i, a).h, Accepted(st, i, a).servers,
                      AppendAnswer(a.leaderId, i, a, AppendReply(a.term, true, 0, 0)))
  {
    hide LogOk, LeaderOk, Certified, HistoryOk, Merge;
    var n, s, k := |st.servers|, st.servers[i], a.prevLogIndex + |a.entries|;
    var log, l := Accept(s, a).log, st.h.leaderLog[a.term];
    MergeMeaning(st.h, n, s.log, a, a.term);
    MergedReaches(s.log, l, k, log);
    assert log[..k + 1] == l[..k + 1];
    AcceptMoves(st, i, a, a.term);
    GrowCarries(st.h, Accepted(st, i, a).h, n, a, a.term);
  }

  // A log that holds all that the message can carry stays as it is.
  lemma NothingNew(log: seq<Entry>, l: seq<Entry>, k: int, merged: seq<Entry>)
    requires Merged(log, l, k, merged) && l <= log
    ensures merged == log
  {
  }

  // A log holds all that the leader of its last term started with.
  lemma HoldsStart(h: History, n: nat, log: seq<Entry>)
    requires HistoryOk(h, n) && LogOk(h, log) && |log| > 1
    ensures LastTerm(log) in h.elections && h.elections[LastTerm(log)].log <= log
  {
    hide LogOk, HistoryOk;
    LastPrefix(h, n, log);
    ElectionFacts(h, n, LastTerm(log));
  }

  // Peer `i` is ahead of what the message carries, and has it all.
  lemma AheadHolds(h: History, n: nat, i: nat, s: Server, t: int)
    requires HistoryOk(h, n) && LogOk(h, s.log) && LagOk(h, i, s) && Ahead(s.log, t) && t in h.leaderLog && s.currentTerm <= t
    requires t >= 0
    ensures h.leaderLog[t] <= s.log
  {
    hide LogOk, HistoryOk;
    LogStart(h, s.log);
    HoldsStart(h, n, s.log);
  }

  lemma TimelyAdvances(st: State, i: nat, a: AppendArgs)
    requires Matches(st, i, a) && AppendArgsOk(st.h, |st.servers|, a)
    ensures Accepting(st, i, a, a.term) && Advances(st, i, a, a.term)
  {
    hide LeaderOk, Certified, VotersKept, PeersKept, CandidatesOk, CountsOk, CallsOk, SourcesOk, NextOk, NetworkOk,
      HistoryOk, Merge, Merged, LagOk, LogOk;
    var n, s := |st.servers|, st.servers[i];
    assert ServerOk(st.h, n, i, s) && LagOk(st.h, i, s);
    if Ahead(s.log, a.term) {
      AheadHolds(st.h, n, i, s, a.term);
      MergeMeaning(st.h, n, s.log, a, a.term);
      NothingNew(s.log, st.h.leaderLog[a.term], a.prevLogIndex + |a.entries|, Merge(s.log, a.prevLogIndex, a.entries));
    }
  }

  lemma LateAdvances(st: State, i: nat, a: AppendArgs, t: int)
    requires Matches(st, i, a) && st.h.late && LateArgs(st.h, st.servers, i, a, t)
    ensures Accepting(st, i, a, t) && Advances(st, i, a, t)
  {
    hide LeaderOk, Certified, VotersKept, PeersKept, CandidatesOk, CountsOk, CallsOk, SourcesOk, NextOk, NetworkOk,
      HistoryOk, Merge, Merged, LogOk, Inv;
    var n, s, h := |st.servers|, st.servers[i], st.h;
    LateFacts(st, i, a, t);
    MergeMeaning(h, n, s.log, a, t);
    if Ahead(s.log, t) {
      AheadHolds(h, n, i, s, t);
      NothingNew(s.log, h.leaderLog[t], a.prevLogIndex + |a.entries|, Merge(s.log, a.prevLogIndex, a.entries));
    } else if LastTerm(s.log) < t {
      ElectionFacts(h, n, t);
      CoversAll(st, i, t);
    }
  }

  lemma LateFacts(st: State, i: nat, a: AppendArgs, t: int)
    requires Matches(st, i, a) && st.h.late && LateArgs(st.h, st.servers, i, a, t)
    ensures HistoryOk(st.h, |st.servers|) && ServerOk(st.h, |st.servers|, i, st.servers[i]) && |st.servers| <= 4
    ensures LagOk(st.h, i, st.servers[i]) && LogOk(st.h, st.servers[i].log)
    ensures a.term in st.h.elections && st.h.elections[a.term].leader != i && a.term >= 1
    ensures Accepting(st, i, a, t)
  {
    hide LeaderOk, Certified, VotersKept, PeersKept, CandidatesOk, CountsOk, CallsOk, SourcesOk, NextOk, NetworkOk,
      HistoryOk, LogOk, Carries;
    assert ServerOk(st.h, |st.servers|, i, st.servers[i]);
    ReceivedTerm(st, i, a);
  }

  // ---------------------------------------------------------------- the leader learns and commits

  lemma {:induction false} CommitMeaning(s: Server, i: int, c: int)
    requires Contiguous(s.log) && First(s.log) <= i && c < i
    ensures var r := CommitScan(s, i, c);
      && c <= r
      && (r == c || (i <= r < NextIndex(s.log) && TermAt(s.log, r) == s.currentTerm
                     && |Holders(s.me, s.matchIndex, r)| * 2 >= |s.matchIndex| + 1))
    decreases NextIndex(s.log) - i
  {
    if i < NextIndex(s.log) {
      if TermAt(s.log, i) != s.currentTerm {
        CommitMeaning(s, i + 1, c);
      } else if |Holders(s.me, s.matchIndex, i)| * 2 >= |s.matchIndex| + 1 {
        CommitMeaning(s, i + 1, i);
      }
    }
  }

  // An entry of the leader's own term that a majority matched is chosen.
  lemma MajorityChosen(h: History, n: nat, i: nat, s: Server, c: int)
    requires HistoryOk(h, n) && LeaderOk(h, n, i, s) && s.me == i < n
    requires 1 <= c < |s.log| && s.log[c].term == s.currentTerm
    requires |Holders(s.me, s.matchIndex, c)| * 2 >= n + 1
    ensures Chosen(h, n, s.currentTerm, c)
    ensures Certified(h, n, s.log, c)
  {
    hide LogOk;
    ElectionFacts(h, n, s.currentTerm);
    SubsetSize(Holders(s.me, s.matchIndex, c), Ackers(h, n, s.currentTerm, c));
    assert Agree(s.log, h.leaderLog[s.currentTerm], c);
  }

  /** What the leader's commit scan newly commits is chosen: an entry of its own term that a majority holds. */
  lemma CommitChosen(h: History, n: nat, i: nat, s: Server)
    requires HistoryOk(h, n) && LeaderOk(h, n, i, s) && s.me == i < n && s.commitIndex >= 0
    ensures Contiguous(s.log) && First(s.log) <= s.commitIndex + 1
    ensures
      var c := CommitScan(s, s.commitIndex + 1, s.commitIndex);
      && s.commitIndex <= c
      && (c > s.commitIndex ==> Chosen(h, n, s.currentTerm, c) && Certified(h, n, s.log, c))
  {
    hide LogOk, HistoryOk, Certified, Chosen;
    ElectionFacts(h, n, s.currentTerm);
    LogShape(h, s.log);
    CommitMeaning(s, s.commitIndex + 1, s.commitIndex);
    var c := CommitScan(s, s.commitIndex + 1, s.commitIndex);
    if c != s.commitIndex {
      MajorityChosen(h, n, i, s, c);
    }
  }

  ghost function Matched(s: Server, f: nat, m: int): Server
    requires f < |s.matchIndex| && f < |s.nextIndex|
  {
    s.(matchIndex := s.matchIndex[f := m], nextIndex := s.nextIndex[f := m + 1])
  }

  lemma MatchedLeader(h: History, n: nat, i: nat, s: Server, f: nat, a: AppendArgs)
    requires HistoryOk(h, n) && LeaderOk(h, n, i, s) && f < n && AppendArgsOk(h, n, a) && a.term == s.currentTerm
    requires Acked(h, a.term, f, a.prevLogIndex + |a.entries|)
    ensures LeaderOk(h, n, i, Matched(s, f, Max(s.matchIndex[f], a.prevLogIndex + |a.entries|)))
  {
    hide Certified, ElectionOk, LogOk;
    assert Acked(h, s.currentTerm, f, Max(s.matchIndex[f], a.prevLogIndex + |a.entries|));
  }

  lemma SucceededOk(h: History, n: nat, i: nat, s: Server, f: nat, a: AppendArgs)
    requires HistoryOk(h, n) && ServerOk(h, n, i, s) && i < n && s.role == Leader && f < n
    requires AppendArgsOk(h, n, a) && a.term == s.currentTerm && Acked(h, a.term, f, a.prevLogIndex + |a.entries|)
    ensures CanHandle(s, f, a)
    ensures ServerOk(h, n, i, AppendSucceeded(s, f, a))
  {
    hide HistoryOk, Certified, LogOk;
    LogShape(h, s.log);
    var s1 := Matched(s, f, Max(s.matchIndex[f], a.prevLogIndex + |a.entries|));
    MatchedLeader(h, n, i, s, f, a);
    CommitMeaning(s1, s1.commitIndex + 1, s1.commitIndex);
    CommitChosen(h, n, i, s1);
  }

  lemma BacktrackedOk(h: History, n: nat, i: nat, s: Server, f: nat, a: AppendArgs, r: AppendReply)
    requires HistoryOk(h, n) && ServerOk(h, n, i, s) && i < n && s.role == Leader && f < n
    requires AppendArgsOk(h, n, a) && a.term == s.currentTerm && r.conflictIndex <= a.prevLogIndex
    ensures CanHandle(s, f, a)
    ensures ServerOk(h, n, i, s.(nextIndex := s.nextIndex[f := Backtrack(s.log, a.prevLogIndex, r, s.matchIndex[f])]))
  {
    hide ElectionOk, Certified, LogOk;
    LogShape(h, s.log);
  }

  // A peer that answered in the leader's term has reached it.
  lemma ResponseNext(st: State, i: nat, s': Server, f: nat)
    requires i < |st.servers| && f < |st.servers| && NextOk(st.h, st.servers) && st.servers[i].role == Leader
    requires st.servers[i].currentTerm <= st.servers[f].currentTerm && s'.currentTerm == st.servers[i].currentTerm
    requires |s'.nextIndex| == |st.servers[i].nextIndex|
    requires forall j :: 0 <= j < |s'.nextIndex| && j != f ==> s'.nextIndex[j] == st.servers[i].nextIndex[j]
    ensures OwnNext(st.h, With(st, i, s').servers, i)
  {
    forall j: nat | j < |st.servers| && j != i ensures NextAt(st.h, With(st, i, s').servers, i, j) {
      assert NextAt(st.h, st.servers, i, j);
    }
  }

  lemma ResponseInv(st: State, i: nat, f: nat, a: AppendArgs, r: AppendReply)
    requires Inv(st) && i < |st.servers| && MessageOk(st.h, st.servers, AppendAnswer(i, f, a, r))
    ensures st.servers[i].role == Leader && st.servers[i].currentTerm == a.term ==> CanHandle(st.servers[i], f, a)
    ensures Inv(With(st, i, AppendResponse(st.servers[i], f, a, r).0))
  {
    hide LogOk, LeaderOk, Certified, VotersKept, NetworkOk, PeersKept, CandidatesOk, CountsOk, CallsOk, HistoryOk,
      Carries, CommitScan, Backtrack, LagsOk, SourcesOk, NextOk, OwnNext;
    var s, n := st.servers[i], |st.servers|;
    assert ServerOk(st.h, n, i, s);
    if s.role != Leader || s.currentTerm != a.term {
      assert st.servers[i := s] == st.servers;
    } else if r.term == s.currentTerm && r.success {
      SucceededOk(st.h, n, i, s, f, a);
      ResponseNext(st, i, AppendSucceeded(s, f, a), f);
      PlainInv(st, i, AppendSucceeded(s, f, a));
    } else if r.term == s.currentTerm {
      BacktrackedOk(st.h, n, i, s, f, a, r);
      var s' := s.(nextIndex := s.nextIndex[f := Backtrack(s.log, a.prevLogIndex, r, s.matchIndex[f])]);
      ResponseNext(st, i, s', f);
      PlainInv(st, i, s');
    } else {
      ResponseRange(st.h, n, i, s, f, a);
      CatchupInv(st, i, r.term);
    }
  }

  lemma ResponseRange(h: History, n: nat, i: nat, s: Server, f: nat, a: AppendArgs)
    requires ServerOk(h, n, i, s) && i < n && s.role == Leader && f < n
    requires AppendArgsOk(h, n, a) && a.term == s.currentTerm
    ensures CanHandle(s, f, a)
  {
    hide Certified, LogOk;
    LogShape(h, s.log);
  }
}
