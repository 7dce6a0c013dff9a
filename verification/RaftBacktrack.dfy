/** The leader's fast search for the point where a follower's log parts from its own, and its commit scan. */
module RaftBacktrack {
  import opened RaftLog
  import opened RaftHandlers
  import opened RaftProtocol
  import opened RaftInvariant
  import opened RaftFrame
  import opened RaftReplication
  import opened RaftSafety

  // A log as runs produce it: numbered from the marker, with terms that never fall.
  ghost predicate Ordered(log: seq<Entry>) {
    && |log| > 0 && log[0] == MARKER
    && (forall i :: 0 <= i < |log| ==> log[i].index == i)
    && (forall i :: 1 <= i < |log| ==> log[i].term >= 1)
    && (forall i, j :: 0 <= i <= j < |log| ==> log[i].term <= log[j].term)
  }

  // Equal terms at an index mean equal logs up to it.
  ghost predicate Matching(a: seq<Entry>, b: seq<Entry>) {
    forall i :: 0 <= i < |a| && i < |b| && a[i].term == b[i].term ==> Agree(a, b, i)
  }

  // `p` is the last index up to which the two logs agree.
  ghost predicate AgreementPoint(leader: seq<Entry>, follower: seq<Entry>, p: int) {
    Agree(leader, follower, p) && !Agree(leader, follower, p + 1)
  }

  ghost predicate Comparable(leader: seq<Entry>, follower: seq<Entry>, p: int, matched: int) {
    && Ordered(leader) && Ordered(follower) && Matching(leader, follower)
    && AgreementPoint(leader, follower, p) && 0 <= matched <= p
  }

  // The follower accepts exactly the probes at or below the agreement point.
  lemma AcceptsIff(leader: seq<Entry>, follower: seq<Entry>, p: int, matched: int, prev: int)
    requires Comparable(leader, follower, p, matched) && 0 <= prev < |leader|
    ensures Contiguous(follower) && First(follower) == 0
    ensures HasPrev(follower, prev, leader[prev].term) <==> prev <= p
  {
    if prev <= p {
      assert leader[prev] == follower[prev];
    } else if prev < |follower| && leader[prev].term == follower[prev].term {
      assert Agree(leader, follower, prev);
      assert Agree(leader, follower, p + 1);
    }
  }

  // The index tried next, after the follower (in state `f`) refused the probe behind `next - 1`.
  ghost function Retry(leader: seq<Entry>, f: Server, next: int, matched: int): int
    requires Contiguous(leader) && Contiguous(f.log) && First(f.log) <= next - 1 < NextIndex(leader)
  {
    Backtrack(leader, next - 1, Reject(f, next - 1), matched)
  }

  // The leader's scan finds an entry of the term only where all entries above it have larger terms.
  lemma {:induction false} LastWithTermMeaning(log: seq<Entry>, i: int, term: int)
    requires Ordered(log) && -1 <= i < |log|
    ensures Contiguous(log) && First(log) == 0 && NextIndex(log) == |log|
    ensures var r := LastWithTerm(log, i, term);
      && (r == -1 ==> forall j :: 0 <= j <= i ==> log[j].term != term)
      && (r >= 0 ==> r <= i && log[r].term == term && forall j :: r < j <= i ==> log[j].term > term)
    decreases i + 1
  {
    if i >= 0 && log[i].term > term {
      LastWithTermMeaning(log, i - 1, term);
    }
  }

  /** A refused probe moves strictly down, and never below the agreement point. */
  lemma FastBacktrack(leader: seq<Entry>, f: Server, p: int, matched: int, next: int)
    requires Comparable(leader, f.log, p, matched)
    requires p + 1 < next <= |leader|
    ensures Contiguous(leader) && Contiguous(f.log) && First(f.log) <= next - 1 < NextIndex(leader)
    ensures p + 1 <= Retry(leader, f, next, matched) < next
  {
    hide LastWithTerm, RunStart, Contiguous, Comparable;
    ComparableShape(leader, f.log, p, matched);
    if next - 1 < NextIndex(f.log) {
      Conflict(leader, f.log, p, matched, next - 1);
    }
  }

  lemma ComparableShape(leader: seq<Entry>, follower: seq<Entry>, p: int, matched: int)
    requires Comparable(leader, follower, p, matched)
    ensures Contiguous(leader) && First(leader) == 0 && NextIndex(leader) == |leader|
    ensures Contiguous(follower) && First(follower) == 0 && NextIndex(follower) == |follower|
    ensures 0 <= matched <= p < |leader| && p < |follower|
  {
  }

  // Both scans after a conflict stay between the agreement point and the refused index.
  lemma Conflict(leader: seq<Entry>, follower: seq<Entry>, p: int, matched: int, prev: int)
    requires Comparable(leader, follower, p, matched) && p < prev < |leader| && prev < |follower|
    ensures Contiguous(leader) && Contiguous(follower) && First(follower) == 0 && NextIndex(leader) == |leader|
    ensures NextIndex(follower) == |follower| && TermAt(follower, prev) >= 1
    ensures
      var ct := TermAt(follower, prev);
      var last, start := LastWithTerm(leader, prev - 1, ct), RunStart(follower, prev - 1, ct);
      start <= prev && (if last > 0 then p <= last < prev else p < start)
  {
    var ct := follower[prev].term;
    LastWithTermMeaning(leader, prev - 1, ct);
    RunStartMeaning(follower, prev - 1, ct);
    hide LastWithTerm, RunStart, Contiguous, Matching;
    ScanBounds(leader, follower, p, prev, LastWithTerm(leader, prev - 1, ct), RunStart(follower, prev - 1, ct));
  }

  lemma RunStartMeaning(log: seq<Entry>, i: int, term: int)
    requires Contiguous(log) && First(log) == 0 && -1 <= i < |log|
    ensures var r := RunStart(log, i, term);
      0 <= r <= i + 1 && forall j :: r <= j <= i ==> log[j].term == term
  {
    hide RunStart;
    var r := RunStart(log, i, term);
    forall j | r <= j <= i ensures log[j].term == term {
      assert TermAt(log, j) == term;
    }
  }

  lemma ScanBounds(leader: seq<Entry>, follower: seq<Entry>, p: int, prev: int, last: int, start: int)
    requires Ordered(leader) && Ordered(follower) && Agree(leader, follower, p)
    requires p < prev < |leader| && prev < |follower|
    requires last == -1 ==> forall j :: 0 <= j < prev ==> leader[j].term != follower[prev].term
    requires last >= 0 ==> last < prev && leader[last].term == follower[prev].term && forall j :: last < j < prev ==> leader[j].term > follower[prev].term
    requires last >= -1 && 0 <= start <= prev && forall j :: start <= j < prev ==> follower[j].term == follower[prev].term
    ensures last >= 0 ==> p <= last
    ensures last == -1 ==> p < start
    ensures last != 0
  {
    assert leader[p] == follower[p] && follower[p].term <= follower[prev].term;
  }

  /** What a refusal tells: that the log is too short and where it ends, or the term at the refused index and where the run
      of that term begins. */
  lemma RefusalMeaning(s: Server, prev: int)
    requires Contiguous(s.log) && First(s.log) == 0 && prev >= 0
    ensures
      var r := Reject(s, prev);
      && !r.success && r.term == s.currentTerm
      && if prev >= |s.log| then r.conflictIndex == |s.log| && r.conflictTerm == -1
         else
           && r.conflictTerm == s.log[prev].term && 0 <= r.conflictIndex <= prev
           && (forall j :: r.conflictIndex <= j <= prev ==> s.log[j].term == s.log[prev].term)
           && (r.conflictIndex > 0 ==> s.log[r.conflictIndex - 1].term != s.log[prev].term)
  {
    hide RunStart;
    if prev < |s.log| {
      RunStartMeaning(s.log, prev - 1, s.log[prev].term);
      var r := RunStart(s.log, prev - 1, s.log[prev].term);
      assert r > 0 ==> TermAt(s.log, r - 1) != s.log[prev].term;
    }
  }

  /** A refusal costs the follower's log a whole term: the next probe is accepted, or it meets the follower at an earlier
      term.  Where the log was too short, the next probe falls within it. */
  lemma SkipsTerm(leader: seq<Entry>, f: Server, p: int, matched: int, next: int)
    requires Comparable(leader, f.log, p, matched) && p + 1 < next <= |leader|
    ensures Contiguous(leader) && Contiguous(f.log) && First(f.log) <= next - 1 < NextIndex(leader)
    ensures
      var prev, prev' := next - 1, Retry(leader, f, next, matched) - 1;
      && 0 <= prev' < |f.log|
      && (prev < |f.log| ==> prev' == p || f.log[prev'].term < f.log[prev].term)
  {
    FastBacktrack(leader, f, p, matched, next);
    ComparableShape(leader, f.log, p, matched);
    RefusalMeaning(f, next - 1);
    var prev := next - 1;
    if prev < |f.log| {
      var ct := f.log[prev].term;
      Conflict(leader, f.log, p, matched, prev);
      LastWithTermMeaning(leader, prev - 1, ct);
      hide LastWithTerm, RunStart, Contiguous;
      LowerTerm(leader, f.log, p, matched, prev, LastWithTerm(leader, prev - 1, ct), RunStart(f.log, prev - 1, ct));
    }
  }

  lemma LowerTerm(leader: seq<Entry>, follower: seq<Entry>, p: int, matched: int, prev: int, last: int, start: int)
    requires Comparable(leader, follower, p, matched) && p < prev < |leader| && prev < |follower|
    requires last > 0 ==> p <= last < prev && leader[last].term == follower[prev].term
    requires p < start <= prev || last > 0
    requires 0 < start <= prev ==> follower[start - 1].term != follower[prev].term
    ensures last > 0 ==> last == p || follower[last].term < follower[prev].term
    ensures last <= 0 ==> start - 1 == p || follower[start - 1].term < follower[prev].term
  {
    if last > p {
      AcceptsIff(leader, follower, p, matched, last);
    }
  }

  // How often the terms of the log change up to index `k`.
  ghost function TermChanges(log: seq<Entry>, k: nat): nat
    requires k < |log|
  {
    if k == 0 then 0 else TermChanges(log, k - 1) + if log[k].term != log[k - 1].term then 1 else 0
  }

  lemma {:induction false} MoreChanges(log: seq<Entry>, j: nat, k: nat)
    requires Ordered(log) && j <= k < |log|
    ensures TermChanges(log, j) <= TermChanges(log, k)
    ensures log[j].term < log[k].term ==> TermChanges(log, j) < TermChanges(log, k)
    decreases k
  {
    if j < k {
      MoreChanges(log, j, k - 1);
    }
  }

  // How many probes are refused before one is accepted.
  ghost function Refusals(leader: seq<Entry>, f: Server, p: int, matched: int, next: int): nat
    requires Comparable(leader, f.log, p, matched) && p + 1 <= next <= |leader|
    decreases next
  {
    FastRound(leader, f, p, matched, next);
    if next == p + 1 then 0 else 1 + Refusals(leader, f, p, matched, Retry(leader, f, next, matched))
  }

  /** The fast search needs at most one round for each term in which the follower differs, and two more: it does not depend
      on how many entries there are. */
  lemma {:induction false} FewRefusals(leader: seq<Entry>, f: Server, p: int, matched: int, next: int)
    requires Comparable(leader, f.log, p, matched) && p + 1 <= next <= |leader|
    ensures next <= |f.log| ==>
      Refusals(leader, f, p, matched, next) <= 1 + TermChanges(f.log, next - 1) - TermChanges(f.log, p)
    ensures Refusals(leader, f, p, matched, next) <= 2 + TermChanges(f.log, |f.log| - 1) - TermChanges(f.log, p)
    decreases next
  {
    hide Retry, Comparable, Ordered, Contiguous, TermChanges, HasPrev, Refusals;
    RefusalsNext(leader, f, p, matched, next);
    ComparableFacts(leader, f.log, p, matched);
    MoreChanges(f.log, p, |f.log| - 1);
    if next <= |f.log| {
      MoreChanges(f.log, p, next - 1);
      MoreChanges(f.log, next - 1, |f.log| - 1);
    }
    if next > p + 1 {
      var next' := Retry(leader, f, next, matched);
      SkipsTerm(leader, f, p, matched, next);
      FewRefusals(leader, f, p, matched, next');
      RefusalsNext(leader, f, p, matched, next');
      MoreChanges(f.log, next' - 1, |f.log| - 1);
      if next <= |f.log| {
        MoreChanges(f.log, next' - 1, next - 1);
      }
    }
  }

  lemma RefusalsNext(leader: seq<Entry>, f: Server, p: int, matched: int, next: int)
    requires Comparable(leader, f.log, p, matched) && p + 1 <= next <= |leader|
    ensures Contiguous(leader) && Contiguous(f.log) && First(f.log) <= next - 1 < NextIndex(leader)
    ensures next > p + 1 ==> p + 1 <= Retry(leader, f, next, matched) < next
    ensures Refusals(leader, f, p, matched, next) ==
      if next == p + 1 then 0 else 1 + Refusals(leader, f, p, matched, Retry(leader, f, next, matched))
  {
    hide Retry, Comparable, Contiguous, HasPrev;
    FastRound(leader, f, p, matched, next);
  }

  lemma ComparableFacts(leader: seq<Entry>, follower: seq<Entry>, p: int, matched: int)
    requires Comparable(leader, follower, p, matched)
    ensures Ordered(follower) && 0 <= p < |follower| && p < |leader|
  {
  }

  // The whole search, as the repeated rounds of replication perform it.
  ghost function FastSearch(leader: seq<Entry>, f: Server, p: int, matched: int, next: int): (r: int)
    requires Comparable(leader, f.log, p, matched)
    requires p + 1 <= next <= |leader|
    decreases next
  {
    FastRound(leader, f, p, matched, next);
    if HasPrev(f.log, next - 1, leader[next - 1].term) then next
    else FastSearch(leader, f, p, matched, Retry(leader, f, next, matched))
  }

  // The search that Figure 2 of the Raft paper describes: one index lower each round.
  ghost function SlowSearch(leader: seq<Entry>, f: Server, p: int, matched: int, next: int): (r: int)
    requires Comparable(leader, f.log, p, matched)
    requires p + 1 <= next <= |leader|
    decreases next
  {
    FastRound(leader, f, p, matched, next);
    if HasPrev(f.log, next - 1, leader[next - 1].term) then next else SlowSearch(leader, f, p, matched, next - 1)
  }

  lemma FastRound(leader: seq<Entry>, f: Server, p: int, matched: int, next: int)
    requires Comparable(leader, f.log, p, matched)
    requires p + 1 <= next <= |leader|
    ensures Contiguous(leader) && Contiguous(f.log) && First(f.log) <= next - 1 < NextIndex(leader)
    ensures HasPrev(f.log, next - 1, leader[next - 1].term) <==> next == p + 1
    ensures next > p + 1 ==> p + 1 <= Retry(leader, f, next, matched) < next
  {
    AcceptsIff(leader, f.log, p, matched, next - 1);
    if p + 1 < next {
      FastBacktrack(leader, f, p, matched, next);
    }
  }

  /** Both searches stop exactly behind the agreement point. */
  lemma {:induction false} SearchesAgree(leader: seq<Entry>, f: Server, p: int, matched: int, next: int)
    requires Comparable(leader, f.log, p, matched)
    requires p + 1 <= next <= |leader|
    ensures FastSearch(leader, f, p, matched, next) == p + 1
    ensures SlowSearch(leader, f, p, matched, next) == p + 1
    decreases next
  {
    FastRound(leader, f, p, matched, next);
    if next > p + 1 {
      SearchesAgree(leader, f, p, matched, next - 1);
      SearchesAgree(leader, f, p, matched, Retry(leader, f, next, matched));
    }
  }

  // ---------------------------------------------------------------- in runs

  lemma OrderedLog(h: History, n: nat, log: seq<Entry>)
    requires HistoryOk(h, n) && LogOk(h, log)
    ensures Ordered(log)
  {
    forall i, j | 0 <= i <= j < |log| ensures log[i].term <= log[j].term {
      if j > 0 {
        var t := log[j].term;
        ElectionFacts(h, n, t);
        assert Agree(log, h.leaderLog[t], j);
        assert log[i] == h.leaderLog[t][i];
      }
    }
  }

  lemma FindAgreement(a: seq<Entry>, b: seq<Entry>, k: int) returns (p: int)
    requires Agree(a, b, k)
    ensures k <= p && AgreementPoint(a, b, p)
    decreases |a| - k
  {
    p := k;
    if Agree(a, b, k + 1) {
      p := FindAgreement(a, b, k + 1);
    }
  }

  /** In every run, a leader and a peer that is still in its term satisfy what the searches need, and both end
      just behind their agreement. */
  lemma SearchWorksInRuns(n: nat, states: seq<State>, events: seq<Event>, k: nat, i: nat, j: nat, next: int) returns (p: int)
    requires CalmRun(n, states, events) && k < |states|
    requires i < |states[k].servers| && j < |states[k].servers| && i != j
    requires states[k].servers[i].role == Leader && states[k].servers[j].currentTerm == states[k].servers[i].currentTerm
    ensures j < |states[k].servers[i].matchIndex|
    ensures Comparable(states[k].servers[i].log, states[k].servers[j].log, p, states[k].servers[i].matchIndex[j])
    ensures p + 1 <= next <= |states[k].servers[i].log| ==>
      && FastSearch(states[k].servers[i].log, states[k].servers[j], p, states[k].servers[i].matchIndex[j], next) == p + 1
      && SlowSearch(states[k].servers[i].log, states[k].servers[j], p, states[k].servers[i].matchIndex[j], next) == p + 1
  {
    hide Certified, VotersKept, CandidatesOk, CountsOk, CallsOk, NetworkOk, SourcesOk, NextOk, HistoryOk, LogOk,
      PeersKept, Step;
    RunInv(n, states, events, k);
    var st := states[k];
    var s, f, h := st.servers[i], st.servers[j], st.h;
    assert ServerOk(h, n, i, s) && ServerOk(h, n, j, f) && LagOk(h, j, f);
    if Ahead(f.log, f.currentTerm) {
      assert false by { OthersReached(h, n, j, f, i, s); }
    }
    p := LeaderComparable(h, n, i, j, s, f, st.servers);
    if p + 1 <= next <= |s.log| {
      SearchesAgree(s.log, f, p, s.matchIndex[j], next);
    }
  }

  lemma LeaderComparable(h: History, n: nat, i: nat, j: nat, s: Server, f: Server, servers: seq<Server>) returns (p: int)
    requires HistoryOk(h, n) && PeersKept(h, servers) && |servers| == n && j < n && servers[j] == f
    requires ServerOk(h, n, i, s) && ServerOk(h, n, j, f) && s.role == Leader && f.currentTerm == s.currentTerm && !Ahead(f.log, f.currentTerm)
    ensures |s.matchIndex| == n && Comparable(s.log, f.log, p, s.matchIndex[j])
  {
    hide Certified;
    var m := s.matchIndex[j];
    assert MatchedAgrees(h, n, s.log, f.log, m) by {
      MatchedStays(h, n, i, j, s, f, servers);
    }
    hide LeaderOk, PeersKept;
    OrderedLog(h, n, s.log);
    OrderedLog(h, n, f.log);
    forall q | 0 <= q < |s.log| && q < |f.log| && s.log[q].term == f.log[q].term ensures Agree(s.log, f.log, q) {
      LogMatching(h, s.log, f.log, q);
    }
    p := FindAgreement(s.log, f.log, m);
  }

  ghost predicate MatchedAgrees(h: History, n: nat, a: seq<Entry>, b: seq<Entry>, m: int) {
    0 <= m && Agree(a, b, m)
  }

  // What a follower acknowledged to the leader of its term, it still holds.
  lemma MatchedStays(h: History, n: nat, i: nat, j: nat, s: Server, f: Server, servers: seq<Server>)
    requires HistoryOk(h, n) && PeersKept(h, servers) && |servers| == n && j < n && servers[j] == f
    requires ServerOk(h, n, i, s) && ServerOk(h, n, j, f) && s.role == Leader && f.currentTerm == s.currentTerm && !Ahead(f.log, f.currentTerm)
    ensures |s.matchIndex| == n && MatchedAgrees(h, n, s.log, f.log, s.matchIndex[j])
  {
    hide Certified, HistoryOk, LogOk;
    LogStart(h, s.log);
    LogStart(h, f.log);
    var m := s.matchIndex[j];
    if m > 0 {
      AckedInTerm(h, n, s.currentTerm, j, m);
      assert Kept(h, f.log, s.currentTerm, m, s.currentTerm + 1);
    }
  }

  // ---------------------------------------------------------------- the commit scan

  lemma FewerHolders(s: Server, i: int, k: int)
    requires i <= k
    ensures |Holders(s.me, s.matchIndex, k)| <= |Holders(s.me, s.matchIndex, i)|
  {
    SubsetSize(Holders(s.me, s.matchIndex, k), Holders(s.me, s.matchIndex, i));
  }

  /** The scan stops early, yet no index beyond its result is an entry of the current term on a majority. */
  lemma {:induction false} CommitGreatest(s: Server, i: int, c: int, k: int)
    requires Contiguous(s.log) && First(s.log) <= i && c < i
    requires i <= k < NextIndex(s.log) && TermAt(s.log, k) == s.currentTerm
    requires |Holders(s.me, s.matchIndex, k)| * 2 >= |s.matchIndex| + 1
    ensures k <= CommitScan(s, i, c)
    decreases NextIndex(s.log) - i
  {
    FewerHolders(s, i, k);
    if i < k {
      if TermAt(s.log, i) != s.currentTerm {
        CommitGreatest(s, i + 1, c, k);
      } else {
        CommitGreatest(s, i + 1, i, k);
      }
    } else {
      CommitAtLeast(s, i + 1, i);
    }
  }

  lemma {:induction false} CommitAtLeast(s: Server, i: int, c: int)
    requires Contiguous(s.log) && First(s.log) <= i && c < i
    ensures c <= CommitScan(s, i, c)
    decreases NextIndex(s.log) - i
  {
    if i < NextIndex(s.log) {
      if TermAt(s.log, i) != s.currentTerm {
        CommitAtLeast(s, i + 1, c);
      } else {
        CommitAtLeast(s, i + 1, i);
      }
    }
  }
}
