/** Late messages in a cluster of at most four peers.

    A majority leaves out at most one peer there.  So while a peer stays behind in an old term, all others vote in every
    later election, and no leader in between can lose what an earlier one had.  When the peer that stayed behind accepts
    a late message, the log it carries covers all it skipped.
 */
module RaftLate {
  import opened RaftLog
  import opened RaftHandlers
  import opened RaftProtocol
  import opened RaftInvariant
  import opened RaftFrame

  // Peer `f` takes no part in the elections after `c`.
  ghost predicate Absent(h: History, f: nat, c: int) {
    forall u :: u in h.elections && c < u ==> f !in h.elections[u].quorum && h.elections[u].leader != f
  }

  lemma StaysAbsent(h: History, n: nat, f: nat, s: Server)
    requires HistoryOk(h, n) && ServerOk(h, n, f, s)
    ensures Absent(h, f, s.currentTerm)
  {
    hide LogOk, Certified, LeaderOk;
    forall u | u in h.elections && s.currentTerm < u ensures f !in h.elections[u].quorum && h.elections[u].leader != f {
      assert ElectionOk(h, n, u);
    }
  }

  lemma UpToDateTrans(a: seq<Entry>, b: seq<Entry>, c: seq<Entry>)
    requires UpToDateLog(a, b) && UpToDateLog(b, c)
    ensures UpToDateLog(a, c)
  {
  }

  // A log that holds another one is at least as recent.
  lemma LongerUpToDate(h: History, n: nat, a: seq<Entry>, b: seq<Entry>)
    requires HistoryOk(h, n) && LogOk(h, a) && LogOk(h, b) && Agree(a, b, |b| - 1)
    ensures UpToDateLog(a, b)
  {
    hide HistoryOk;
    LastTermLargest(h, n, a, |b| - 1);
  }

  /** As long as one peer is absent, every leader starts with a log at least as recent as all that earlier leaders had. */
  lemma {:induction false} NewestWins(h: History, n: nat, f: nat, c: int, t: int)
    requires HistoryOk(h, n) && VotersKept(h) && n <= 4 && f < n
    requires c in h.elections && t in h.elections && c < t && h.elections[c].leader != f && Absent(h, f, c)
    ensures c in h.leaderLog && UpToDateLog(h.elections[t].log, h.leaderLog[c])
    decreases t - c
  {
    hide LogOk, UpToDateLog;
    assert ElectionOk(h, n, c) && ElectionOk(h, n, t);
    var v, l, e := h.elections[c].leader, h.leaderLog[c], h.elections[t];
    MissesOne(n, e.quorum, v, f);
    var vlog := h.votes[(t, v)].log;
    VoteInTime(h, n, t, v);
    assert InTerm(h, c, |l| - 1) && KeptByVoter(h, c, |l| - 1, v, t);
    if Agree(vlog, l, |l| - 1) {
      LongerUpToDate(h, n, vlog, l);
      UpToDateTrans(e.log, vlog, l);
    } else {
      var u :| u in h.elections && c < u < t && !Agree(h.elections[u].log, l, |l| - 1);
      NewestWins(h, n, f, c, u);
      NewestWins(h, n, f, u, t);
      LeaderUpToDate(h, n, u);
      UpToDateTrans(h.leaderLog[u], h.elections[u].log, l);
      UpToDateTrans(e.log, h.leaderLog[u], l);
    }
  }

  lemma VoteInTime(h: History, n: nat, t: int, v: nat)
    requires HistoryOk(h, n) && t in h.elections && v in h.elections[t].quorum
    ensures (t, v) in h.votes && LogOk(h, h.votes[(t, v)].log)
    ensures !Ahead(h.votes[(t, v)].log, t) && UpToDateLog(h.elections[t].log, h.votes[(t, v)].log)
  {
    assert ElectionOk(h, n, t);
  }

  lemma LeaderUpToDate(h: History, n: nat, u: int)
    requires HistoryOk(h, n) && u in h.elections
    ensures u in h.leaderLog && UpToDateLog(h.leaderLog[u], h.elections[u].log)
  {
    ElectionFacts(h, n, u);
    LongerUpToDate(h, n, h.leaderLog[u], h.elections[u].log);
  }

  // Of two logs with the same last term the more recent one holds the other.
  lemma SameLastTerm(h: History, n: nat, a: seq<Entry>, b: seq<Entry>)
    requires HistoryOk(h, n) && LogOk(h, a) && LogOk(h, b)
    requires UpToDateLog(a, b) && LastTerm(a) == LastTerm(b)
    ensures b <= a
  {
    if |b| > 1 {
      hide HistoryOk, LogOk;
      LogShape(h, a);
      LogShape(h, b);
      LastPrefix(h, n, a);
      LastPrefix(h, n, b);
    }
  }

  // ---------------------------------------------------------------- the peer that stayed behind

  /** Peer `f` is in term `s.currentTerm`, whose leader is another peer, and holds all that the leader of the later term
      `t` started with. */
  ghost predicate Behind(st: State, f: nat, t: int) {
    && Inv(st) && |st.servers| <= 4 && f < |st.servers|
    && var s, h := st.servers[f], st.h;
       && s.currentTerm in h.elections && h.elections[s.currentTerm].leader != f
       && t in h.elections && Reach(s) < t && h.elections[t].log <= s.log
  }

  lemma BehindFacts(st: State, f: nat, t: int)
    requires Behind(st, f, t)
    ensures var n, s, h := |st.servers|, st.servers[f], st.h;
      && HistoryOk(h, n) && VotersKept(h) && ServerOk(h, n, f, s) && Absent(h, f, s.currentTerm)
      && PeerSources(h, f, s) && StartSources(h, t) && LagOk(h, f, s)
      && LogOk(h, h.elections[t].log) && LastTerm(h.elections[t].log) <= Reach(s)
  {
    hide Certified, LeaderOk, VotersKept, NetworkOk, PeersKept, CandidatesOk, CallsOk, CountsOk, LagOk, PeerSources,
      StartSources, NextOk, LogOk;
    var n, s, h := |st.servers|, st.servers[f], st.h;
    assert ServerOk(h, n, f, s);
    StaysAbsent(h, n, f, s);
    ElectionFacts(h, n, t);
    LogStart(h, h.elections[t].log);
    LastTermLargest(h, n, s.log, |h.elections[t].log| - 1);
  }

  // The leader of `t` has all of what a leader of a term from `Reach` on had.
  lemma CoversLater(st: State, f: nat, t: int, u: int)
    requires Behind(st, f, t) && u in st.h.elections && Reach(st.servers[f]) <= u < t
    ensures u in st.h.leaderLog && st.h.leaderLog[u] <= st.h.elections[t].log
  {
    hide Inv, VotersKept, ServerOk, PeerSources, StartSources, LagOk, LogOk, HistoryOk;
    var n, s, h := |st.servers|, st.servers[f], st.h;
    BehindFacts(st, f, t);
    LeaderNotAbsent(h, f, s.currentTerm, u);
    NewestWins(h, n, f, u, t);
    ElectionFacts(h, n, u);
    var e, l := h.elections[t].log, h.leaderLog[u];
    if LastTerm(l) == LastTerm(e) {
      SameLastTerm(h, n, e, l);
    } else {
      assert false by { NoOlder(st, f, t, u); }
    }
  }

  lemma LeaderNotAbsent(h: History, f: nat, c: int, u: int)
    requires Absent(h, f, c) && c in h.elections && h.elections[c].leader != f && u in h.elections && c <= u
    ensures h.elections[u].leader != f && Absent(h, f, u)
  {
  }

  // The leader of `u` did not end in an older term than the leader of `t` started with.
  lemma NoOlder(st: State, f: nat, t: int, u: int)
    requires Behind(st, f, t) && u in st.h.elections && u in st.h.leaderLog && Reach(st.servers[f]) <= u < t
    requires |st.h.leaderLog[u]| > 0 && |st.h.elections[t].log| > 0
    ensures LastTerm(st.h.leaderLog[u]) >= LastTerm(st.h.elections[t].log)
  {
    hide Inv, VotersKept, ServerOk, LagOk, HistoryOk, Source, PeerSources;
    var n, s, h := |st.servers|, st.servers[f], st.h;
    BehindFacts(st, f, t);
    ElectionFacts(h, n, u);
    var e, l := h.elections[t].log, h.leaderLog[u];
    var w := LastTerm(e);
    if LastTerm(l) < w {
      OlderStart(h, n, u, e);
      assert Source(h, u, w, t);
      assert false by { NoSource(st, f, t, u, w); }
    }
  }

  // Entries of term `u` are in the log of its leader.
  lemma EndsLater(h: History, n: nat, u: int, e: seq<Entry>)
    requires HistoryOk(h, n) && u in h.elections && LogOk(h, e) && |e| > 0 && LastTerm(e) == u
    ensures u in h.leaderLog && |h.leaderLog[u]| > 0 && u <= LastTerm(h.leaderLog[u])
  {
    hide HistoryOk;
    ElectionFacts(h, n, u);
    assert Agree(e, h.leaderLog[u], |e| - 1);
    LastTermLargest(h, n, h.leaderLog[u], |e| - 1);
  }

  // A leader that ended in a term before `w <= u` created no entry, and no log has entries of its term.
  lemma OlderStart(h: History, n: nat, u: int, e: seq<Entry>)
    requires HistoryOk(h, n) && u in h.elections && u in h.leaderLog && LogOk(h, e)
    requires |e| > 0 && |h.leaderLog[u]| > 0 && LastTerm(h.leaderLog[u]) < LastTerm(e) <= u
    ensures LastTerm(e) < u && h.leaderLog[u] == h.elections[u].log
  {
    hide HistoryOk, LogOk;
    ElectionFacts(h, n, u);
    if LastTerm(e) == u {
      assert false by { EndsLater(h, n, u, e); }
    }
  }

  lemma NoSource(st: State, f: nat, t: int, u: int, w: int)
    requires Behind(st, f, t) && u in st.h.elections && u in st.h.leaderLog && Reach(st.servers[f]) <= u < t
    requires |st.h.elections[t].log| > 0 && w == LastTerm(st.h.elections[t].log) < u
    requires |st.h.elections[u].log| > 0 && LastTerm(st.h.elections[u].log) < w
    ensures !Source(st.h, u, w, t)
  {
    hide Inv, VotersKept, ServerOk, LagOk, LogOk, HistoryOk, PeerSources, StartSources;
    var n, s, h := |st.servers|, st.servers[f], st.h;
    BehindFacts(st, f, t);
    if x :| x in h.elections && u < x <= t && !Lacks(h, u, h.elections[x].leader, w) {
      var v := h.elections[x].leader;
      QuorumLacks(h, n, u, w);
      ElectionQuorum(h, n, u);
      ElectionQuorum(h, n, x);
      MissesOne(n, h.elections[u].quorum, v, f);
      assert u == s.currentTerm;
      assert false by { VotedWithout(st, f, t, u, w); }
    }
  }

  lemma ElectionQuorum(h: History, n: nat, u: int)
    requires HistoryOk(h, n) && u in h.elections
    ensures IsQuorum(n, h.elections[u].quorum) && h.elections[u].leader < n
  {
    assert ElectionOk(h, n, u);
  }

  lemma QuorumLacks(h: History, n: nat, u: int, w: int)
    requires HistoryOk(h, n) && u in h.elections && |h.elections[u].log| > 0 && LastTerm(h.elections[u].log) < w
    ensures forall q :: q in h.elections[u].quorum ==> Lacks(h, u, q, w)
  {
    assert ElectionOk(h, n, u);
  }

  // Peer `f` did not vote in its term without the entry it now holds.
  lemma VotedWithout(st: State, f: nat, t: int, u: int, w: int)
    requires Behind(st, f, t) && u == st.servers[f].currentTerm
    requires |st.h.elections[t].log| > 0 && w == LastTerm(st.h.elections[t].log) < u
    requires |st.h.elections[u].log| > 0 && LastTerm(st.h.elections[u].log) < w
    ensures f !in st.h.elections[u].quorum
  {
    hide Inv, VotersKept, ServerOk, LagOk, LogOk, HistoryOk, StartSources;
    var n, s, h := |st.servers|, st.servers[f], st.h;
    BehindFacts(st, f, t);
    QuorumLacks(h, n, u, w);
    assert s.log[|h.elections[t].log| - 1].term == w;
    assert !Source(h, u, w, u);
  }

  /** The leader of `t` has all of what the leaders had since the term in which peer `f` stayed behind. */
  lemma CoversAll(st: State, f: nat, t: int)
    requires Behind(st, f, t)
    ensures Covers(st.h, st.servers[f].currentTerm, t)
  {
    hide Inv, VotersKept, ServerOk, PeerSources, StartSources, LogOk;
    var n, s, h := |st.servers|, st.servers[f], st.h;
    BehindFacts(st, f, t);
    forall u | u in h.leaderLog && s.currentTerm <= u < t ensures h.leaderLog[u] <= h.elections[t].log {
      if Reach(s) <= u {
        CoversLater(st, f, t, u);
      } else {
        CoversLater(st, f, t, Reach(s));
        ElectionFacts(h, n, Reach(s));
      }
    }
  }
}
