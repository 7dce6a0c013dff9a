/** What a peer hands to its service: over every calm run, and since its last restart, exactly the entries of its log up
    to the index it has applied, each once and in order. */
module RaftHanded {
  import opened Basics
  import opened RaftLog
  import opened RaftHandlers
  import opened RaftProtocol
  import opened RaftInvariant
  import opened RaftSafety

  /** One batch: as many entries as are committed and not yet applied, numbered on from the last applied one, and those
      the log holds at these indices. */
  lemma BatchMeaning(s: Server)
    requires Contiguous(s.log) && First(s.log) <= s.lastApplied + 1 && s.commitIndex < NextIndex(s.log)
    ensures |ToApply(s)| == Max(0, s.commitIndex - s.lastApplied)
    ensures forall k :: 0 <= k < |ToApply(s)| ==>
      ToApply(s)[k].index == s.lastApplied + 1 + k && ToApply(s)[k] == s.log[s.lastApplied + 1 + k - First(s.log)]
  {
  }

  // What peer `i` has handed over by event `k`, since it last started.
  ghost function Handed(states: seq<State>, events: seq<Event>, i: nat, k: nat): seq<Entry>
    requires |states| == |events| + 1 && k <= |events|
  {
    if k == 0 || events[k - 1] == Reboot(i) then []
    else if events[k - 1] == ApplyCommitted(i) && InRange(states[k - 1], events[k - 1])
    then Handed(states, events, i, k - 1) + ToApply(states[k - 1].servers[i])
    else Handed(states, events, i, k - 1)
  }

  // The entries up to the index that the peer has applied.
  ghost function Prefix(s: Server): seq<Entry>
    requires 0 <= s.lastApplied < |s.log|
  {
    s.log[1..s.lastApplied + 1]
  }

  lemma StepApplied(st: State, e: Event, st': State, i: nat)
    requires Step(st, e, st') && i < |st.servers|
    ensures |st'.servers| == |st.servers|
    ensures e != Reboot(i) ==>
      st'.servers[i].lastApplied == if e == ApplyCommitted(i) then st.servers[i].commitIndex else st.servers[i].lastApplied
    ensures e == ApplyCommitted(i) ==> st'.servers[i].log == st.servers[i].log && st.servers[i].lastApplied < st.servers[i].commitIndex
    ensures e == Reboot(i) ==> |st.servers[i].log| > 0 && st'.servers[i].lastApplied == First(st.servers[i].log)
  {
    hide Merge, CommitScan, Backtrack, MakeAppend, RunStart, GrantsVote;
  }

  lemma PeerApplied(st: State, n: nat, i: nat)
    requires Inv(st) && |st.servers| == n && i < n
    ensures
      var s := st.servers[i];
      0 <= s.lastApplied <= s.commitIndex < |s.log| && First(s.log) == 0 && Contiguous(s.log) && NextIndex(s.log) == |s.log|
  {
    hide LeaderOk, Certified, HistoryOk, VotersKept, PeersKept, CandidatesOk, CountsOk, CallsOk, NetworkOk, LagsOk,
      SourcesOk, NextOk;
    assert ServerOk(st.h, n, i, st.servers[i]);
    LogShape(st.h, st.servers[i].log);
  }

  /** Since its last restart a peer has handed over exactly its log from the first entry to the last applied one. */
  lemma {:induction false} HandedExactly(n: nat, states: seq<State>, events: seq<Event>, i: nat, k: nat)
    requires CalmRun(n, states, events) && k <= |events| && i < n
    ensures |states[k].servers| == n && 0 <= states[k].servers[i].lastApplied < |states[k].servers[i].log|
    ensures Handed(states, events, i, k) == Prefix(states[k].servers[i])
    ensures forall j :: 0 <= j < |Handed(states, events, i, k)| ==> Handed(states, events, i, k)[j].index == j + 1
  {
    hide Step, Inv, InRange, ToApply;
    RunInv(n, states, events, k);
    PeerApplied(states[k], n, i);
    if k > 0 {
      HandedExactly(n, states, events, i, k - 1);
      RunInv(n, states, events, k - 1);
      PeerApplied(states[k - 1], n, i);
      assert Step(states[k - 1], events[k - 1], states[k - 1 + 1]);
      StepApplied(states[k - 1], events[k - 1], states[k], i);
      PrefixGoesOn(n, states, events, i, k);
    } else {
      StartsAtZero(n, i);
    }
  }

  lemma StartsAtZero(n: nat, i: nat)
    requires i < n
    ensures Init(n).servers[i].lastApplied == 0
  {
  }

  lemma PrefixGoesOn(n: nat, states: seq<State>, events: seq<Event>, i: nat, k: nat)
    requires CalmRun(n, states, events) && 0 < k <= |events| && i < n
    requires |states[k - 1].servers| == |states[k].servers| == n
    requires
      var s, s' := states[k - 1].servers[i], states[k].servers[i];
      && 0 <= s.lastApplied <= s.commitIndex < |s.log| && First(s.log) == 0 && Contiguous(s.log) && NextIndex(s.log) == |s.log|
      && 0 <= s'.lastApplied <= s'.commitIndex < |s'.log|
      && (events[k - 1] != Reboot(i) ==>
            s'.lastApplied == if events[k - 1] == ApplyCommitted(i) then s.commitIndex else s.lastApplied)
      && (events[k - 1] == ApplyCommitted(i) ==> s'.log == s.log && s.lastApplied < s.commitIndex)
      && (events[k - 1] == Reboot(i) ==> s'.lastApplied == 0)
    requires Handed(states, events, i, k - 1) == Prefix(states[k - 1].servers[i])
    ensures Handed(states, events, i, k) == Prefix(states[k].servers[i])
  {
    hide Step, ToApply;
    var s, s' := states[k - 1].servers[i], states[k].servers[i];
    assert Step(states[k - 1], events[k - 1], states[k - 1 + 1]) && InRange(states[k - 1], events[k - 1]) by { StepInRange(n, states, events, k); }
    if events[k - 1] == ApplyCommitted(i) {
      BatchMeaning(s);
      assert Prefix(s') == Prefix(s) + ToApply(s);
    } else if events[k - 1] != Reboot(i) {
      forall j | 0 < j <= s.lastApplied ensures s.log[j] == s'.log[j] {
        StateMachineSafety(n, states, events, k - 1, k, i, i, j);
      }
      assert Prefix(s') == Prefix(s);
    }
  }

  lemma StepInRange(n: nat, states: seq<State>, events: seq<Event>, k: nat)
    requires CalmRun(n, states, events) && 0 < k <= |events|
    ensures Step(states[k - 1], events[k - 1], states[k]) && InRange(states[k - 1], events[k - 1])
  {
    assert Step(states[k - 1], events[k - 1], states[k - 1 + 1]);
  }
}
