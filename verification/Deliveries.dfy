/** What a server makes of the commands and snapshots that Raft hands it, in whatever order they arrive.

    Raft sends both without holding its lock, so a message may come after others that were sent later.  A server takes
    only messages above the index it remembers.  One server remembers a snapshot's index; the other one remembers the
    command index of the message, which is 0 for a snapshot. */
module Deliveries {
  import opened Basics

  datatype Machine<!S, !C> = Machine(init: S, execute: (S, C) -> S)

  ghost function Replay<S, C>(m: Machine<S, C>, log: seq<C>): S {
    if log == [] then m.init else m.execute(Replay(m, log[..|log| - 1]), log[|log| - 1])
  }

  // The command at index `at`, or the state after all commands up to index `at`; indices start from 1.
  datatype Delivery = Command(at: nat) | Snapshot(at: nat)

  datatype Replica<S> = Replica(state: S, last: nat)

  ghost predicate Within(ds: seq<Delivery>, n: nat) {
    forall k :: 0 <= k < |ds| ==> 0 < ds[k].at <= n
  }

  ghost function Before(ds: seq<Delivery>): seq<Delivery>
    requires ds != []
  {
    ds[..|ds| - 1]
  }

  ghost function Last(ds: seq<Delivery>): Delivery
    requires ds != []
  {
    ds[|ds| - 1]
  }

  // `keeps` says that the server remembers the index of a snapshot.
  ghost function Deliver<S, C>(m: Machine<S, C>, keeps: bool, log: seq<C>, r: Replica<S>, d: Delivery): Replica<S>
    requires 0 < d.at <= |log|
  {
    if d.at <= r.last then r
    else
      match d
      case Command(at) => Replica(m.execute(r.state, log[at - 1]), at)
      case Snapshot(at) => Replica(Replay(m, log[..at]), if keeps then at else 0)
  }

  // A server that was started with the snapshot at index `from`, after all deliveries.
  ghost function Delivered<S, C>(m: Machine<S, C>, keeps: bool, log: seq<C>, from: nat, ds: seq<Delivery>): Replica<S>
    requires from <= |log| && Within(ds, |log|)
  {
    if ds == [] then Replica(Replay(m, log[..from]), 0)
    else Deliver(m, keeps, log, Delivered(m, keeps, log, from, Before(ds)), Last(ds))
  }

  // ---------------------------------------------------------------- positions

  // The server is in the state after `applied` commands, and remembers the index `last`.
  datatype Place = Place(applied: nat, last: nat)

  ghost function Next(keeps: bool, q: Place, d: Delivery): Place {
    if d.at <= q.last then q
    else
      match d
      case Command(at) => Place(Max(q.applied, at), at)
      case Snapshot(at) => Place(at, if keeps then at else 0)
  }

  ghost function PlaceAfter(keeps: bool, from: nat, ds: seq<Delivery>): (q: Place)
    ensures q.last <= q.applied
  {
    if ds == [] then Place(from, 0) else Next(keeps, PlaceAfter(keeps, from, Before(ds)), Last(ds))
  }

  // A command that is taken although commands before it are missing.
  ghost predicate Skips(q: Place, d: Delivery) {
    d.Command? && q.applied + 1 < d.at
  }

  // A command that is taken although it has been executed before.
  ghost predicate Repeats(q: Place, d: Delivery) {
    d.Command? && q.last < d.at <= q.applied
  }

  // A snapshot that is taken although the server is already beyond it.
  ghost predicate GoesBack(q: Place, d: Delivery) {
    d.Snapshot? && q.last < d.at < q.applied
  }

  ghost predicate NoneSkipped(keeps: bool, from: nat, ds: seq<Delivery>) {
    ds == [] || (NoneSkipped(keeps, from, Before(ds)) && !Skips(PlaceAfter(keeps, from, Before(ds)), Last(ds)))
  }

  ghost predicate NoneBack(keeps: bool, from: nat, ds: seq<Delivery>) {
    ds == [] || (NoneBack(keeps, from, Before(ds)) && !GoesBack(PlaceAfter(keeps, from, Before(ds)), Last(ds)))
  }

  ghost predicate NoneRepeated(keeps: bool, from: nat, ds: seq<Delivery>) {
    ds == [] || (NoneRepeated(keeps, from, Before(ds)) && !Repeats(PlaceAfter(keeps, from, Before(ds)), Last(ds)))
  }

  // Executing a command again that has been executed changes nothing.
  ghost predicate Idempotent<S, C>(m: Machine<S, C>, log: seq<C>) {
    forall p: nat, i: nat :: i < p <= |log| ==> m.execute(Replay(m, log[..p]), log[i]) == Replay(m, log[..p])
  }

  lemma ReplayNext<S, C>(m: Machine<S, C>, log: seq<C>, k: nat)
    requires k < |log|
    ensures Replay(m, log[..k + 1]) == m.execute(Replay(m, log[..k]), log[k])
  {
    assert log[..k + 1][..k] == log[..k];
  }

  /** One delivery keeps the server at a prefix of the log, unless it skips a command.  The prefix shrinks exactly when
      it is a snapshot that goes back. */
  lemma DeliverPrefix<S, C>(m: Machine<S, C>, keeps: bool, log: seq<C>, q: Place, d: Delivery)
    requires 0 < d.at <= |log| && q.last <= q.applied <= |log| && !Skips(q, d)
    requires Idempotent(m, log) || !Repeats(q, d)
    ensures
      var q' := Next(keeps, q, d);
      && q'.last <= q'.applied <= |log|
      && Deliver(m, keeps, log, Replica(Replay(m, log[..q.applied]), q.last), d) == Replica(Replay(m, log[..q'.applied]), q'.last)
      && (q'.applied < q.applied <==> GoesBack(q, d))
  {
    if d.Command? && d.at == q.applied + 1 {
      ReplayNext(m, log, q.applied);
    }
  }

  /** As long as no command is skipped, the server is always at some prefix of the log. */
  lemma {:induction false} AtSomePrefix<S, C>(m: Machine<S, C>, keeps: bool, log: seq<C>, from: nat, ds: seq<Delivery>)
    requires from <= |log| && Within(ds, |log|) && NoneSkipped(keeps, from, ds)
    requires Idempotent(m, log) || NoneRepeated(keeps, from, ds)
    ensures
      var q := PlaceAfter(keeps, from, ds);
      q.applied <= |log| && Delivered(m, keeps, log, from, ds) == Replica(Replay(m, log[..q.applied]), q.last)
  {
    hide Idempotent, Replay, Deliver, Next, Skips, Repeats;
    if ds != [] {
      AtSomePrefix(m, keeps, log, from, Before(ds));
      DeliverPrefix(m, keeps, log, PlaceAfter(keeps, from, Before(ds)), Last(ds));
    }
  }

  // The prefix never shrinks.
  ghost predicate Advances(keeps: bool, from: nat, ds: seq<Delivery>) {
    ds == [] ||
    (Advances(keeps, from, Before(ds)) && PlaceAfter(keeps, from, Before(ds)).applied <= PlaceAfter(keeps, from, ds).applied)
  }

  /** The prefix never shrinks exactly when no snapshot goes back. */
  lemma {:induction false} AdvancesExactly(keeps: bool, from: nat, ds: seq<Delivery>)
    ensures Advances(keeps, from, ds) <==> NoneBack(keeps, from, ds)
  {
    if ds != [] {
      AdvancesExactly(keeps, from, Before(ds));
    }
  }

  // ---------------------------------------------------------------- the newest state

  ghost function Newest(from: nat, ds: seq<Delivery>): (n: nat)
    ensures from <= n && (ds != [] ==> Last(ds).at <= n && Newest(from, Before(ds)) <= n)
  {
    if ds == [] then from else Max(Newest(from, Before(ds)), Last(ds).at)
  }

  lemma {:induction false} AtMostNewest(from: nat, ds: seq<Delivery>, k: nat)
    requires k < |ds|
    ensures ds[k].at <= Newest(from, ds)
  {
    if k < |ds| - 1 {
      AtMostNewest(from, Before(ds), k);
    }
  }

  lemma NewestMost(from: nat, ds: seq<Delivery>)
    requires forall k :: 0 <= k < |ds| ==> ds[k].at > 0
    ensures Within(ds, Newest(from, ds))
  {
    forall k | 0 <= k < |ds| ensures ds[k].at <= Newest(from, ds) {
      AtMostNewest(from, ds, k);
    }
  }

  // Nothing is skipped and nothing goes back.
  ghost predicate InTurn(keeps: bool, from: nat, ds: seq<Delivery>) {
    NoneSkipped(keeps, from, ds) && NoneBack(keeps, from, ds)
  }

  lemma {:induction false} InTurnNewest(keeps: bool, from: nat, ds: seq<Delivery>)
    requires InTurn(keeps, from, ds)
    ensures PlaceAfter(keeps, from, ds).applied == Newest(from, ds)
  {
    if ds != [] {
      InTurnNewest(keeps, from, Before(ds));
    }
  }

  // After every delivery the server is in the state after everything it has heard of so far.
  ghost predicate UpToDate<S, C>(m: Machine<S, C>, keeps: bool, log: seq<C>, from: nat, ds: seq<Delivery>)
    requires Newest(from, ds) <= |log| && Within(ds, |log|)
  {
    && Delivered(m, keeps, log, from, ds).state == Replay(m, log[..Newest(from, ds)])
    && (ds == [] || UpToDate(m, keeps, log, from, Before(ds)))
  }

  // The log tells all its prefixes apart, and a prefix with a later command from the prefix up to it.
  ghost predicate Telling<S, C>(m: Machine<S, C>, log: seq<C>) {
    && (forall p: nat, q: nat :: p < q <= |log| ==> Replay(m, log[..p]) != Replay(m, log[..q]))
    && (forall p: nat, at: nat :: p + 1 < at <= |log| ==> m.execute(Replay(m, log[..p]), log[at - 1]) != Replay(m, log[..at]))
  }

  lemma BadStep<S, C>(m: Machine<S, C>, keeps: bool, log: seq<C>, q: Place, d: Delivery)
    requires Telling(m, log) && q.applied <= |log| && 0 < d.at <= |log| && q.last <= q.applied
    requires Skips(q, d) || GoesBack(q, d)
    ensures Deliver(m, keeps, log, Replica(Replay(m, log[..q.applied]), q.last), d).state != Replay(m, log[..Max(q.applied, d.at)])
  {
  }

  /** Deliveries in turn keep the server up to date on every log, and others do not on any log that tells. */
  lemma {:induction false} UpToDateIff<S, C>(m: Machine<S, C>, keeps: bool, log: seq<C>, from: nat, ds: seq<Delivery>)
    requires Newest(from, ds) <= |log| && Within(ds, |log|)
    requires Idempotent(m, log) || NoneRepeated(keeps, from, ds)
    ensures InTurn(keeps, from, ds) ==> UpToDate(m, keeps, log, from, ds)
    ensures Telling(m, log) && !InTurn(keeps, from, ds) ==> !UpToDate(m, keeps, log, from, ds)
  {
    hide Idempotent, Replay, Deliver, Next, Skips, Repeats, GoesBack, Telling;
    if ds != [] {
      var rest, d := Before(ds), Last(ds);
      UpToDateIff(m, keeps, log, from, rest);
      if InTurn(keeps, from, rest) {
        var q := PlaceAfter(keeps, from, rest);
        AtSomePrefix(m, keeps, log, from, rest);
        InTurnNewest(keeps, from, rest);
        if InTurn(keeps, from, ds) {
          DeliverPrefix(m, keeps, log, q, d);
          InTurnNewest(keeps, from, ds);
        } else if Telling(m, log) {
          BadStep(m, keeps, log, q, d);
        }
      }
    }
  }

  // ---------------------------------------------------------------- what Raft sends

  // Raft sends the next command, or a snapshot of something newer than all before.
  ghost predicate Sent(from: nat, ds: seq<Delivery>) {
    ds == [] ||
    (&& Sent(from, Before(ds))
     && if Last(ds).Command? then Last(ds).at == Newest(from, Before(ds)) + 1 else Last(ds).at > Newest(from, Before(ds)))
  }

  /** What arrives in the order in which Raft sends it is in turn for either server. */
  lemma {:induction false} SentInTurn(keeps: bool, from: nat, ds: seq<Delivery>)
    requires Sent(from, ds)
    ensures InTurn(keeps, from, ds)
  {
    if ds != [] {
      SentInTurn(keeps, from, Before(ds));
      InTurnNewest(keeps, from, Before(ds));
    }
  }

  /** A server that remembers the index of a snapshot never goes back and never repeats a command, in whatever order
      messages above the restored snapshot arrive; only a skipped command can harm it. */
  lemma {:induction false} KeepingNeverBack(from: nat, ds: seq<Delivery>)
    requires forall k :: 0 <= k < |ds| ==> ds[k].at > from
    ensures NoneBack(true, from, ds) && NoneRepeated(true, from, ds)
    ensures PlaceAfter(true, from, ds) == Place(Newest(from, ds), if ds == [] then 0 else Newest(from, ds))
  {
    if ds != [] {
      KeepingNeverBack(from, Before(ds));
    }
  }
}
