/** The controller and the groups together: which histories of the controller keep the store safe. */
module ShardedStore {
  import opened CtrlerSpec
  import opened Rebalance
  import Groups = ShardGroup
  import Protocol = ShardProtocol
  import Exact = ShardExact
  import Forced = ShardForced
  import Single = ShardSingle
  import Once = ShardOnce
  import Invariant = ShardInvariant

  // `hist` are the configurations that the operations make; gids are positive and moves are to joined groups.
  ghost predicate Made(hist: seq<Config>, ops: seq<Op>, n: nat) {
    && |hist| == |ops| + 1 && hist[0] == Config(0, seq(n, i => 0), map[])
    && (forall i :: 0 <= i < |ops| ==> OpOk(ops[i], n) && Follows(hist[i], ops[i], hist[i + 1], n))
  }

  ghost predicate Follows(c: Config, op: Op, c': Config, n: nat)
    requires OpOk(op, n)
  {
    ConfigOk(c, n) && Sensible(c, op) && c' == Next(c, op, n)
  }

  lemma {:induction false} MadePlaced(hist: seq<Config>, ops: seq<Op>, n: nat, i: nat)
    requires Made(hist, ops, n) && i < |hist|
    ensures ConfigOk(hist[i], n) && hist[i].num == i && Placed(hist[i])
  {
    hide Next, Placed;
    if i == 0 {
      FirstPlaced(n);
    } else {
      MadePlaced(hist, ops, n, i - 1);
      assert Follows(hist[i - 1], ops[i - 1], hist[i - 1 + 1], n);
      NextOk(hist[i - 1], ops[i - 1], n);
      NextPlaced(hist[i - 1], ops[i - 1], n);
    }
  }

  lemma FirstPlaced(n: nat)
    ensures Placed(Config(0, seq(n, i => 0), map[]))
  {
  }

  // What the groups see of the controller's configurations; the gids there are positive, as `SetupOk` says.
  ghost function Seen(hist: seq<Config>): (r: seq<Groups.Config>)
    ensures |r| == |hist| && forall i :: 0 <= i < |r| ==> r[i] == Groups.Config(hist[i].num, Owners(hist[i].shards))
  {
    seq(|hist|, i requires 0 <= i < |hist| => Groups.Config(hist[i].num, Owners(hist[i].shards)))
  }

  ghost function Owners(shards: seq<Gid>): (r: seq<nat>)
    ensures |r| == |shards| && forall s :: 0 <= s < |r| && shards[s] >= 0 ==> r[s] == shards[s]
  {
    seq(|shards|, s requires 0 <= s < |shards| => if shards[s] >= 0 then shards[s] else 0)
  }

  ghost function StoreSetup(hist: seq<Config>, n: nat, groups: nat): Protocol.Setup {
    Protocol.Setup(n, groups, Seen(hist))
  }

  // All gids are below `groups`.
  ghost predicate Within(hist: seq<Config>, groups: nat) {
    0 < groups && forall i, g :: 0 <= i < |hist| && g in hist[i].groups ==> g < groups
  }

  lemma SetupOk(hist: seq<Config>, ops: seq<Op>, n: nat, groups: nat)
    requires Made(hist, ops, n) && n > 0 && Within(hist, groups)
    ensures StoreSetup(hist, n, groups).WellFormed()
    ensures forall i, s :: 0 <= i < |hist| && 0 <= s < n ==> StoreSetup(hist, n, groups).Owner(i, s) == hist[i].shards[s]
    ensures forall i :: 0 <= i < |hist| ==> Placed(hist[i])
  {
    hide Next;
    forall i | 0 <= i < |hist| ensures ConfigOk(hist[i], n) && hist[i].num == i && Placed(hist[i]) {
      MadePlaced(hist, ops, n, i);
    }
  }

  // Once a group has joined, some group always remains.
  ghost predicate SomeoneStays(hist: seq<Config>) {
    forall i :: 0 < i < |hist| && hist[i].groups == map[] ==> hist[i - 1].groups == map[]
  }

  /** As long as not every group leaves, the controller never drops an owned shard: the premise of the store's guarantees
      holds, and no run loses a write. */
  lemma StoreSafe(hist: seq<Config>, ops: seq<Op>, n: nat, groups: nat)
    requires Made(hist, ops, n) && n > 0 && Within(hist, groups) && SomeoneStays(hist)
    ensures StoreSetup(hist, n, groups).WellFormed()
    ensures StoreSetup(hist, n, groups).NeverDropped() && StoreSetup(hist, n, groups).KeepsOwner()
    ensures forall trace, events :: Protocol.Run(StoreSetup(hist, n, groups), trace, events) ==> Exact.Faithful(trace[|events|])
  {
    hide Next, Protocol.Step, Exact.Faithful;
    var p := StoreSetup(hist, n, groups);
    SetupOk(hist, ops, n, groups);
    forall m: nat, s: nat | m + 1 < |p.configs| && p.Owner(m, s) != 0 ensures p.Owner(m + 1, s) != 0 {
      MadePlaced(hist, ops, n, m);
      MadePlaced(hist, ops, n, m + 1);
      StaysOwned(hist, n, m, s);
    }
    Exact.NeverDroppedKeeps(p);
    forall trace, events | Protocol.Run(p, trace, events) ensures Exact.Faithful(trace[|events|]) {
      Exact.AlwaysFaithful(p, trace, events);
    }
  }

  lemma StaysOwned(hist: seq<Config>, n: nat, m: nat, s: nat)
    requires m + 1 < |hist| && s < n && SomeoneStays(hist)
    requires ConfigOk(hist[m], n) && ConfigOk(hist[m + 1], n) && Placed(hist[m]) && Placed(hist[m + 1])
    requires hist[m].shards[s] != 0
    ensures hist[m + 1].shards[s] != 0
  {
    assert hist[m + 1 - 1] == hist[m];
  }

  // No shard moves from group to group after configuration `i` up to `j`.
  ghost predicate Still(p: Protocol.Setup, i: nat, j: nat)
    requires p.WellFormed()
  {
    forall c: nat, s: nat :: i < c <= j ==> !Invariant.Moved(p, c, s)
  }

  // Then nobody is waited for there, and no table goes on.
  lemma StillForces(p: Protocol.Setup, i: nat, j: nat, g: nat, h: nat)
    requires p.WellFormed() && Still(p, i, j) && g != h && i < j
    ensures !Forced.Forces(p, g, j, h, i + 1) && !Once.Informed(p, h, i, g, j)
  {
    if Forced.Forces(p, g, j, h, i + 1) {
      var c: nat, g': nat :| c < j && Forced.Linked(p, g, g', c) && Forced.Forces(p, g', c, h, i + 1);
      Forced.ForcesLess(p, g', c, h, i + 1, i + 1);
    }
    if Once.Informed(p, h, i, g, j) {
      var c: nat, g': nat :| c < j && Forced.Gives(p, g', g, c) && Once.Informed(p, h, i, g', c);
      Once.InformedForces(p, h, i, g', c);
    }
  }

  // Some run loses a write, some run has two servers of a shard, and some run executes a write twice.
  ghost predicate GoesWrong(p: Protocol.Setup)
    requires p.WellFormed()
  {
    && (exists trace, events :: Protocol.Run(p, trace, events) && !Exact.Faithful(trace[|events|]))
    && (exists trace, events :: Protocol.Run(p, trace, events) && !Forced.OneServer(trace[|events|]))
    && (exists trace, events :: Protocol.Run(p, trace, events) && !Once.Once(trace[|events|]))
  }

  lemma PassedOnWrong(p: Protocol.Setup, s: nat, i: nat, j: nat)
    requires p.WellFormed() && s < p.n && p.PassedOn(s, i, j) && Still(p, i, j + 1)
    requires forall s :: 0 <= s < p.n ==> Exact.Reachable(p, s)
    ensures GoesWrong(p)
  {
    hide Protocol.Run, Exact.Faithful, Forced.OneServer, Once.Once, Forced.Forces, Once.Informed, Exact.Reachable;
    var a, b := p.Owner(i, s), p.Owner(j + 1, s);
    StillForces(p, i, j + 1, b, a);
    assert Forced.Changes(p, s, i, j + 1) && !Forced.ServingForces(p, b, j + 1, s, a, i + 1);
    assert !Once.ServingInformed(p, a, i, b, j + 1, s);
    Exact.LosingRun(p);
    Single.SingleExactly(p);
    Once.OnceExactly(p);
  }

  /** If every group leaves and only other groups join afterwards, some run of the store loses a write, some run has two
      groups that serve the same shard, and some run executes a write twice. */
  lemma EveryoneLeft(hist: seq<Config>, ops: seq<Op>, n: nat, groups: nat, i: nat, j: nat)
    requires Made(hist, ops, n) && 0 < n <= 128 && Within(hist, groups)
    requires i < j && j + 1 < |hist| && hist[i].groups != map[] && hist[j + 1].groups != map[]
    requires forall m :: i < m <= j ==> hist[m].groups == map[]
    requires hist[i].groups.Keys !! hist[j + 1].groups.Keys
    ensures StoreSetup(hist, n, groups).WellFormed() && GoesWrong(StoreSetup(hist, n, groups))
  {
    hide Next, GoesWrong, StoreSetup;
    var p := StoreSetup(hist, n, groups);
    SetupOk(hist, ops, n, groups);
    SetupSize(hist, n, groups);
    MadePlaced(hist, ops, n, i);
    MadePlaced(hist, ops, n, j + 1);
    assert p.Owner(i, 0) in hist[i].groups && p.Owner(j + 1, 0) in hist[j + 1].groups;
    forall c: nat, s: nat | i < c <= j ensures p.Owner(c, s) == 0 {
      NobodyBetween(hist, ops, n, groups, i, j, c, s);
    }
    assert p.PassedOn(0, i, j);
    assert Still(p, i, j + 1);
    forall s | 0 <= s < n ensures Exact.Reachable(p, s) {
      KeyFor(s, n);
    }
    PassedOnWrong(p, 0, i, j);
  }

  lemma SetupSize(hist: seq<Config>, n: nat, groups: nat)
    ensures StoreSetup(hist, n, groups).n == n
  {
  }

  lemma NobodyBetween(hist: seq<Config>, ops: seq<Op>, n: nat, groups: nat, i: nat, j: nat, m: nat, s: nat)
    requires Made(hist, ops, n) && n > 0 && Within(hist, groups) && i < m <= j < |hist|
    requires forall m :: i < m <= j ==> hist[m].groups == map[]
    ensures StoreSetup(hist, n, groups).WellFormed() && StoreSetup(hist, n, groups).Owner(m, s) == 0
  {
    hide Next;
    SetupOk(hist, ops, n, groups);
    MadePlaced(hist, ops, n, m);
  }

  lemma KeyFor(s: nat, n: nat)
    requires s < n <= 128
    ensures Groups.KeyToShard([s as char], n) == s
  {
  }
}
