/** The servers of a replica group and the group's one state: in every run the state is what the group's log makes of a
    fresh server, and a server that has got a part of the log in turn is in a state that the group had. */
module ShardReplica {
  import opened Basics
  import opened ShardGroup
  import opened ShardProtocol
  import opened ShardInvariant
  import opened ShardStages
  import opened ShardServer
  import D = Deliveries

  // A fresh server is in the state in which the group starts.
  lemma BlankIsFresh(p: Setup)
    requires p.WellFormed()
    ensures Blank(p.n) == Fresh(p)
  {
    assert p.configs[0].shards == seq(p.n, i => 0);
  }

  ghost function Listed(ids: set<nat>): (r: seq<nat>)
    ensures Elements(r) == ids
  {
    if i :| i in ids then
      var rest := Listed(ids - {i});
      assert Elements(rest + [i]) == Elements(rest) + {i};
      rest + [i]
    else []
  }

  // The command as the server reads it from the log.
  ghost function MessageOf(cmd: Command): Message {
    match cmd
    case ClientOp(req) => ClientMsg(req)
    case AddConfig(c) => ConfigMsg(c)
    case InsertShard(num, data, last) => InsertMsg(num, data, last)
    case DeleteShard(ids, num, caller) => DeleteMsg(Listed(ids), num)
    case AdjustShardState(ids, num) => AdjustMsg(Listed(ids), num)
  }

  /** A server that executes a command does to its state what the group's step does, and a delete is answered with OK
      exactly when the caller goes on to its adjustment. */
  lemma ExecutesStep(p: Setup, st: State, g: nat, cmd: Command)
    requires p.WellFormed() && Shaped(p, st) && 0 < g < p.groups && Sized(p, st, Apply(g, cmd))
    ensures
      var (x', r), st' := Executed(st.now[g], g, MessageOf(cmd)), Applied(p, st, g, cmd);
      && st'.now == st.now[g := x'] && st'.past == st.past[g := st.past[g] + {x'}]
      && (cmd.DeleteShard? && cmd.caller < p.groups ==>
            st'.pending == if r.err == OK
              then st.pending[cmd.caller := st.pending[cmd.caller] + {AdjustShardState(cmd.ids, cmd.num)}] else st.pending)
  {
    hide GetPutAppend, ProcessAddConfig, ProcessInsertShard, ProcessDeleteShard, ProcessAdjust, Listed;
  }

  // The log of group `g`: the commands it has applied by event `k`.
  ghost function LogOf(events: seq<Event>, g: nat, k: nat): seq<Message>
    requires k <= |events|
  {
    if k == 0 then []
    else if events[k - 1].Apply? && events[k - 1].g == g then LogOf(events, g, k - 1) + [MessageOf(events[k - 1].cmd)]
    else LogOf(events, g, k - 1)
  }

  lemma StepElsewhere(p: Setup, st: State, e: Event, g: nat)
    requires p.WellFormed() && Shaped(p, st) && Enabled(p, st, e) && Sized(p, st, e) && g < p.groups
    requires !(e.Apply? && e.g == g)
    ensures Shaped(p, Exec(p, st, e)) && Exec(p, st, e).now[g] == st.now[g] && Exec(p, st, e).past[g] == st.past[g]
  {
    hide GetPutAppend, ProcessAddConfig, ProcessInsertShard, ProcessDeleteShard, ProcessAdjust, Copies, WithState;
  }

  lemma StepHere(p: Setup, st: State, g: nat, cmd: Command)
    requires p.WellFormed() && Stages(p, st) && Enabled(p, st, Apply(g, cmd)) && Sized(p, st, Apply(g, cmd))
    ensures
      var x', st' := Machine(g, p.n).execute(st.now[g], MessageOf(cmd)), Exec(p, st, Apply(g, cmd));
      Shaped(p, st') && st'.now[g] == x' && st'.past[g] == st.past[g] + {x'}
  {
    hide StageOk, Executed, Applied;
    assert GroupOk(p, g, st.now[g]);
    StepStages(p, st, Apply(g, cmd));
    ExecutesStep(p, st, g, cmd);
    assert Fitting(st.now[g], p.n) && MessageFits(MessageOf(cmd), p.n);
  }

  /** In every run, for any configurations, a group's state is what its log makes of a fresh server, and the states it had
      are what the prefixes of the log make of it. */
  lemma {:induction false} GroupIsReplay(p: Setup, trace: seq<State>, events: seq<Event>, g: nat, k: nat)
    requires p.WellFormed() && Run(p, trace, events) && k <= |events| && 0 < g < p.groups
    ensures Shaped(p, trace[k]) && trace[k].now[g] == D.Replay(Machine(g, p.n), LogOf(events, g, k))
    ensures forall j :: 0 <= j <= |LogOf(events, g, k)| ==>
      D.Replay(Machine(g, p.n), LogOf(events, g, k)[..j]) in trace[k].past[g]
  {
    hide Stages, Machine, D.Replay, Exec;
    RunStages(p, trace, events, k);
    assert Shaped(p, trace[k]) by { StagesShape(p, trace[k]); }
    var log := LogOf(events, g, k);
    if k == 0 {
      assert log[..0] == [];
      StartsBlank(p, g);
    } else {
      GroupIsReplay(p, trace, events, g, k - 1);
      RunStages(p, trace, events, k - 1);
      assert Step(p, trace[k - 1], events[k - 1], trace[k - 1 + 1]);
      var e, before := events[k - 1], LogOf(events, g, k - 1);
      if e.Apply? && e.g == g {
        StepHere(p, trace[k - 1], g, e.cmd);
        D.ReplayNext(Machine(g, p.n), log, |before|);
        assert log[..|before|] == before && log[..|before| + 1] == log;
        forall j | 0 <= j <= |log| ensures D.Replay(Machine(g, p.n), log[..j]) in trace[k].past[g] {
          if j <= |before| {
            assert log[..j] == before[..j];
          } else {
            assert log[..j] == log;
          }
        }
      } else {
        StepElsewhere(p, trace[k - 1], e, g);
      }
    }
  }

  lemma StagesShape(p: Setup, st: State)
    requires p.WellFormed() && Stages(p, st)
    ensures Shaped(p, st)
  {
  }

  lemma StartsBlank(p: Setup, g: nat)
    requires p.WellFormed() && g < p.groups
    ensures Init(p).now[g] == D.Replay(Machine(g, p.n), []) && Init(p).past[g] == {D.Replay(Machine(g, p.n), [])}
  {
    BlankIsFresh(p);
  }

  /** Whatever part of the group's log a server has got, as commands and snapshots in any order that skips no command, it is
      in a state that the group had: this is all that a monitor or a pull can read. */
  lemma ServerInPast(p: Setup, trace: seq<State>, events: seq<Event>, g: nat, from: nat, ds: seq<D.Delivery>)
    requires p.WellFormed() && Run(p, trace, events) && 0 < g < p.groups
    requires from <= |LogOf(events, g, |events|)| && D.Within(ds, |LogOf(events, g, |events|)|)
    requires (forall k :: 0 <= k < |ds| ==> ds[k].at > from) && D.NoneSkipped(true, from, ds)
    ensures Shaped(p, trace[|events|])
    ensures D.Delivered(Machine(g, p.n), true, LogOf(events, g, |events|), from, ds).state in trace[|events|].past[g]
  {
    hide Machine, D.Delivered, D.Replay;
    var log := LogOf(events, g, |events|);
    GroupIsReplay(p, trace, events, g, |events|);
    D.KeepingNeverBack(from, ds);
    D.AtSomePrefix(Machine(g, p.n), true, log, from, ds);
  }
}
