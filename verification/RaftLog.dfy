/** The replicated log of one Raft peer, and the scans that the handlers run over it.

    `log[0]` is the marker entry that stands for everything before the log: its index is the
    first index of the log.  Absolute indices are therefore offset by `First(log)`.
 */
module RaftLog {
  import opened Basics

  // A command is opaque to Raft; the marker entry carries none.
  datatype Command = NoCommand | Command(payload: string)

  datatype Entry = Entry(command: Command, term: int, index: int)

  // The zero value of the source's LogEntry, which a fresh peer starts from.
  const MARKER := Entry(NoCommand, 0, 0)

  // Indices count up by one from the marker.
  ghost predicate Contiguous(log: seq<Entry>) {
    && |log| > 0
    && forall k :: 0 <= k < |log| ==> log[k].index == log[0].index + k
  }

  function First(log: seq<Entry>): int
    requires |log| > 0
  {
    log[0].index
  }

  function LastIndex(log: seq<Entry>): int
    requires |log| > 0
  {
    log[|log| - 1].index
  }

  function LastTerm(log: seq<Entry>): int
    requires |log| > 0
  {
    log[|log| - 1].term
  }

  function NextIndex(log: seq<Entry>): int
    requires |log| > 0
  {
    LastIndex(log) + 1
  }

  ghost predicate InLog(log: seq<Entry>, i: int) {
    |log| > 0 && 0 <= i - log[0].index < |log|
  }

  function TermAt(log: seq<Entry>, i: int): int
    requires InLog(log, i)
  {
    log[i - First(log)].term
  }

  // A candidate with this last entry is at least as recent as `log`.
  predicate UpToDate(lastTerm: int, lastIndex: int, log: seq<Entry>)
    requires |log| > 0
  {
    lastTerm > LastTerm(log) || (lastTerm == LastTerm(log) && lastIndex >= LastIndex(log))
  }

  // How many of `entries`, placed at absolute index `at`, the log already holds (by term).
  function MatchLen(log: seq<Entry>, at: int, entries: seq<Entry>): (k: nat)
    requires Contiguous(log) && First(log) <= at
    ensures k <= |entries|
    ensures at + k <= Max(at, NextIndex(log))
    decreases |entries|
  {
    if entries == [] || at >= NextIndex(log) || TermAt(log, at) != entries[0].term then 0
    else 1 + MatchLen(log, at + 1, entries[1..])
  }

  // The follower's log after it accepted `entries` behind index `prev`.
  function Merge(log: seq<Entry>, prev: int, entries: seq<Entry>): (r: seq<Entry>)
    requires Contiguous(log) && InLog(log, prev)
    ensures |r| > 0 && r[0] == log[0]
  {
    var k := MatchLen(log, prev + 1, entries);
    if k < |entries| then log[..prev + 1 + k - First(log)] + entries[k..] else log
  }

  // The first index of the run of `term` that ends at `i` (`i + 1` when there is none).
  function RunStart(log: seq<Entry>, i: int, term: int): (r: int)
    requires Contiguous(log) && i < NextIndex(log) && First(log) <= i + 1
    ensures First(log) <= r <= i + 1
    ensures forall j :: r <= j <= i ==> TermAt(log, j) == term
    ensures r > First(log) ==> TermAt(log, r - 1) != term
    decreases i - First(log) + 1
  {
    if i < First(log) || TermAt(log, i) != term then i + 1 else RunStart(log, i - 1, term)
  }

  // The leader's scan down from `i` for an entry of `term`; -1 when it meets a smaller term first.
  function LastWithTerm(log: seq<Entry>, i: int, term: int): (r: int)
    requires Contiguous(log) && i < NextIndex(log)
    ensures r == -1 || (First(log) <= r <= i && TermAt(log, r) == term)
    decreases i - First(log) + 1
  {
    if i < First(log) then -1
    else if TermAt(log, i) == term then i
    else if TermAt(log, i) < term then -1
    else LastWithTerm(log, i - 1, term)
  }
}
