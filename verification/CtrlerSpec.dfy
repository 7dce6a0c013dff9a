/** The shard controller's configurations: what Join, Leave, Move and Query make of them. */
module CtrlerSpec {
  import opened Basics
  import opened Loads
  import opened Rebalance

  // `shards[i]` is the gid that owns shard `i`, 0 for nobody; `groups` maps each gid to its servers.
  datatype Config = Config(num: nat, shards: seq<Gid>, groups: map<Gid, seq<string>>)

  datatype Op =
    | Join(servers: map<Gid, seq<string>>)
    | Leave(gids: seq<Gid>)
    | Move(shard: nat, gid: Gid)

  // ---------------------------------------------------------------- rebalancing

  // The shards of group `g` among the first `n`, in increasing order.
  ghost function Places(a: seq<Gid>, n: nat, g: Gid): (r: seq<nat>)
    requires n <= |a|
    ensures forall i :: 0 <= i < |r| ==> r[i] < n && a[r[i]] == g
    ensures Distinct(r)
  {
    if n == 0 then []
    else if a[n - 1] == g then Places(a, n - 1, g) + [n - 1]
    else Places(a, n - 1, g)
  }

  // The gids that shards can be spread over: the joined ones and any other that owns a shard, but not 0.
  ghost function Gids(groups: set<Gid>, a: seq<Gid>): set<Gid> {
    groups + Elements(a) - {0}
  }

  // The lists of shards by gid.
  ghost function Lists(groups: set<Gid>, a: seq<Gid>, n: nat): map<Gid, seq<nat>>
    requires n <= |a|
  {
    map g | g in groups + Elements(a[..n]) :: Places(a, n, g)
  }

  // Without a gid to spread over, the smallest gid is found to be -1; its list is then there from the start.
  ghost function WithNobody(cnt: map<Gid, seq<nat>>): map<Gid, seq<nat>> {
    if exists g :: g in cnt && g != 0 then cnt else cnt[-1 := []]
  }

  ghost function Start(groups: set<Gid>, a: seq<Gid>): map<Gid, seq<nat>> {
    WithNobody(Lists(groups, a, |a|))
  }

  // The gids in some order.
  ghost function Listed(gids: set<Gid>): (ks: seq<Gid>)
    ensures Distinct(ks) && forall g :: g in ks <==> g in gids
  {
    if g :| g in gids then Listed(gids - {g}) + [g] else []
  }

  lemma SomeGid(gids: set<Gid>)
    requires gids != {}
    ensures exists g :: g in gids
  {
  }

  // Those that end up with the shards.
  ghost function Holders(groups: set<Gid>, a: seq<Gid>): seq<Gid> {
    if exists g :: g in Gids(groups, a) then Listed(Gids(groups, a)) else [-1]
  }

  lemma {:induction false} PlacesCounted(a: seq<Gid>, n: nat, g: Gid)
    requires n <= |a|
    ensures |Places(a, n, g)| == Count(a[..n], g)
  {
    if n > 0 {
      PlacesCounted(a, n - 1, g);
      assert a[..n][..n - 1] == a[..n - 1];
    }
  }

  lemma ListsTallied(groups: set<Gid>, a: seq<Gid>)
    ensures Tallied(Lists(groups, a, |a|), a)
  {
    hide Places, Count;
    var cnt := Lists(groups, a, |a|);
    assert a[..|a|] == a;
    forall g | g in cnt ensures |cnt[g]| == Count(a, g) && Distinct(cnt[g]) {
      PlacesCounted(a, |a|, g);
    }
    forall s | 0 <= s < |a| ensures a[s] in cnt {
      assert a[s] in Elements(a);
    }
  }

  lemma StartTallied(groups: set<Gid>, a: seq<Gid>)
    ensures Tallied(Start(groups, a), a) && Enumerates(Start(groups, a), Holders(groups, a))
  {
    hide Places, Count, Listed;
    var cnt, ks := Lists(groups, a, |a|), Holders(groups, a);
    ListsTallied(groups, a);
    assert a[..|a|] == a;
    assert forall g :: g in cnt && g != 0 <==> g in Gids(groups, a);
    if g :| g in Gids(groups, a) {
      assert g in cnt && g in ks;
    } else {
      assert forall s :: 0 <= s < |a| ==> a[s] in cnt;
      NotCounted(a, -1);
    }
  }

  // What adjustShards makes of an assignment; it does nothing without groups.
  ghost function Adjusted(groups: set<Gid>, a: seq<Gid>): (r: seq<Gid>) {
    if groups == {} then a
    else
      StartTallied(groups, a);
      Rebalanced(Start(groups, a), a, Holders(groups, a))
  }

  /** The outcome for any shard count and any non-empty set of groups: every shard is on a group, the groups' shares
      differ by at most one, and no assignment with these two properties leaves more shards where they were. */
  lemma AdjustedBest(groups: set<Gid>, a: seq<Gid>, b: seq<Gid>)
    requires groups != {}
    requires |b| == |a| && Balanced(b, Holders(groups, a))
    ensures |Adjusted(groups, a)| == |a| && Balanced(Adjusted(groups, a), Holders(groups, a))
    ensures Changed(a, Adjusted(groups, a)) <= Changed(a, b)
  {
    StartTallied(groups, a);
    MinimalMovement(Start(groups, a), a, Holders(groups, a), b);
  }

  lemma AdjustedBalanced(groups: set<Gid>, a: seq<Gid>)
    requires groups != {}
    ensures |Adjusted(groups, a)| == |a| && Balanced(Adjusted(groups, a), Holders(groups, a))
  {
    StartTallied(groups, a);
    RebalancedMeaning(Start(groups, a), a, Holders(groups, a));
  }

  lemma {:induction false} PlacesInOrder(a: seq<Gid>, n: nat, g: Gid, i: nat, j: nat)
    requires n <= |a| && i < j < |Places(a, n, g)|
    ensures Places(a, n, g)[i] < Places(a, n, g)[j]
  {
    if n > 0 && (a[n - 1] != g || j < |Places(a, n, g)| - 1) {
      PlacesInOrder(a, n - 1, g, i, j);
    }
  }

  lemma {:induction false} PlaceOf(a: seq<Gid>, n: nat, s: nat) returns (i: nat)
    requires s < n <= |a|
    ensures i < |Places(a, n, a[s])| && Places(a, n, a[s])[i] == s
  {
    if s == n - 1 {
      i := |Places(a, n, a[s])| - 1;
    } else {
      i := PlaceOf(a, n - 1, s);
    }
  }

  /** The shards that a group loses are its lowest ones. */
  lemma LowestGiven(groups: set<Gid>, a: seq<Gid>, s: nat, t: nat)
    requires groups != {} && s < t < |a| && a[s] == a[t]
    ensures |Adjusted(groups, a)| == |a|
    ensures Adjusted(groups, a)[t] != a[t] ==> Adjusted(groups, a)[s] != a[s]
  {
    hide Places, Rebalanced, Holders;
    AdjustedBalanced(groups, a);
    StartTallied(groups, a);
    var g, cnt := a[s], Start(groups, a);
    var i := PlaceOf(a, |a|, s);
    var j := PlaceOf(a, |a|, t);
    if j < i {
      PlacesInOrder(a, |a|, g, j, i);
    }
    assert a[..|a|] == a && g in Elements(a);
    assert g in cnt && cnt[g] == Places(a, |a|, g) by { StartLists(groups, a, s); }
    FrontGoesFirst(cnt, a, Holders(groups, a), g, i, j);
  }

  lemma StartLists(groups: set<Gid>, a: seq<Gid>, s: nat)
    requires s < |a|
    ensures a[s] in Start(groups, a) && Start(groups, a)[a[s]] == Places(a, |a|, a[s])
  {
    hide Places;
    assert a[..|a|] == a;
    if a[s] == -1 {
      assert -1 in Lists(groups, a, |a|);
    }
  }

  /** A balanced assignment is left alone. */
  lemma AdjustedStable(groups: set<Gid>, a: seq<Gid>)
    requires groups != {} && Balanced(a, Holders(groups, a))
    ensures Adjusted(groups, a) == a
  {
    AdjustedBest(groups, a, a);
    ChangedNone(a);
    Unchanged(a, Adjusted(groups, a));
  }

  lemma {:induction false} Unchanged(a: seq<Gid>, b: seq<Gid>)
    requires |a| == |b| && Changed(a, b) == 0
    ensures a == b
  {
    if a != [] {
      Unchanged(a[..|a| - 1], b[..|b| - 1]);
      assert a == a[..|a| - 1] + [a[|a| - 1]] && b == b[..|b| - 1] + [b[|b| - 1]];
    }
  }

  // ---------------------------------------------------------------- the operations

  // The shards of the leaving groups go back to nobody.
  ghost function Vacated(a: seq<Gid>, gids: seq<Gid>): (r: seq<Gid>)
    ensures |r| == |a|
  {
    seq(|a|, s requires 0 <= s < |a| => if a[s] in gids then 0 else a[s])
  }

  ghost predicate ConfigOk(c: Config, n: nat) {
    |c.shards| == n
  }

  // A moved shard exists.
  ghost predicate OpOk(op: Op, n: nat) {
    op.Move? ==> op.shard < n
  }

  // Gids are positive, and shards are moved to joined groups only.
  ghost predicate Sensible(c: Config, op: Op) {
    && (op.Join? ==> forall g :: g in op.servers ==> g > 0)
    && (op.Move? ==> op.gid in c.groups)
  }

  ghost function Next(c: Config, op: Op, n: nat): (r: Config)
    requires ConfigOk(c, n) && OpOk(op, n)
  {
    match op
    case Join(servers) =>
      var groups := c.groups + servers;
      Config(c.num + 1, Adjusted(groups.Keys, c.shards), groups)
    case Leave(gids) =>
      var groups := c.groups - Elements(gids);
      Config(c.num + 1, Adjusted(groups.Keys, Vacated(c.shards, gids)), groups)
    case Move(shard, gid) =>
      Config(c.num + 1, c.shards[shard := gid], c.groups)
  }

  lemma NextOk(c: Config, op: Op, n: nat)
    requires ConfigOk(c, n) && OpOk(op, n)
    ensures ConfigOk(Next(c, op, n), n) && Next(c, op, n).num == c.num + 1
  {
    hide Rebalanced, Start, Holders;
    var keys := Next(c, op, n).groups.Keys;
    if op.Join? && keys != {} {
      AdjustedBalanced(keys, c.shards);
    } else if op.Leave? && keys != {} {
      AdjustedBalanced(keys, Vacated(c.shards, op.gids));
    }
  }

  // The groups are as before, but for those in `changed`.
  ghost predicate OthersStay(c: Config, r: Config, changed: set<Gid>) {
    forall g :: g !in changed ==> (g in r.groups <==> g in c.groups) && (g in c.groups ==> r.groups[g] == c.groups[g])
  }

  // The shards are spread evenly, no even spread over the same gids leaves more of `a` where it was, and whoever loses
  // shards loses its lowest ones.
  ghost predicate SpreadFrom(a: seq<Gid>, r: Config) {
    && |r.shards| == |a| && Balanced(r.shards, Holders(r.groups.Keys, a))
    && (forall s, t :: 0 <= s < t < |a| && a[s] == a[t] && r.shards[t] != a[t] ==> r.shards[s] != a[s])
    && forall b :: |b| == |a| && Balanced(b, Holders(r.groups.Keys, a)) ==> Changed(a, r.shards) <= Changed(a, b)
  }

  lemma AdjustedSpread(a: seq<Gid>, r: Config)
    requires r.groups != map[] && r.shards == Adjusted(r.groups.Keys, a)
    ensures SpreadFrom(a, r)
  {
    hide Adjusted, Balanced, Holders, Changed;
    var groups := r.groups.Keys;
    AdjustedBalanced(groups, a);
    forall b | |b| == |a| && Balanced(b, Holders(groups, a)) ensures Changed(a, r.shards) <= Changed(a, b) {
      AdjustedBest(groups, a, b);
    }
    forall s, t | 0 <= s < t < |a| && a[s] == a[t] && r.shards[t] != a[t] ensures r.shards[s] != a[s] {
      LowestGiven(groups, a, s, t);
    }
  }

  /** After a join every joined gid is there with its servers and the other groups are as before; the shards are spread
      evenly, with least movement. */
  lemma JoinMeaning(c: Config, servers: map<Gid, seq<string>>, n: nat)
    requires ConfigOk(c, n)
    ensures
      var r := Next(c, Join(servers), n);
      && (forall g :: g in servers ==> g in r.groups && r.groups[g] == servers[g])
      && OthersStay(c, r, servers.Keys)
      && if r.groups == map[] then r.shards == c.shards else SpreadFrom(c.shards, r)
  {
    hide Adjusted, SpreadFrom;
    var r := Next(c, Join(servers), n);
    if r.groups == map[] {
      assert r.groups.Keys == {};
      NothingAdjusted(c.shards);
    } else {
      AdjustedSpread(c.shards, r);
    }
  }

  lemma NothingAdjusted(a: seq<Gid>)
    ensures Adjusted({}, a) == a
  {
  }

  // The owners once the leaving groups have lost their shards.
  ghost predicate Left(a: seq<Gid>, gids: seq<Gid>, b: seq<Gid>) {
    |b| == |a| && forall s :: 0 <= s < |a| ==> b[s] == if a[s] in gids then 0 else a[s]
  }

  /** After a leave none of the leaving gids is among the groups or owns a shard (but -1, which gets everything where only
      the group 0 remains), and the other groups are as before.  The shards of the leaving groups, and as few others as
      possible, are spread evenly. */
  lemma LeaveMeaning(c: Config, gids: seq<Gid>, n: nat)
    requires ConfigOk(c, n)
    ensures
      var r := Next(c, Leave(gids), n);
      && (forall g :: g in gids ==> g !in r.groups) && OthersStay(c, r, Elements(gids))
      && |r.shards| == n
      && (forall s :: 0 <= s < n && r.shards[s] in gids ==>
            r.shards[s] == 0 || (r.shards[s] == -1 && forall g :: g in r.groups ==> g == 0))
      && exists a :: Left(c.shards, gids, a) && if r.groups == map[] then r.shards == a else SpreadFrom(a, r)
  {
    hide Adjusted, SpreadFrom;
    var r, a := Next(c, Leave(gids), n), Vacated(c.shards, gids);
    NextOk(c, Leave(gids), n);
    assert Left(c.shards, gids, a);
    if r.groups == map[] {
      assert r.groups.Keys == {};
      NothingAdjusted(a);
    } else {
      AdjustedSpread(a, r);
      LeftOwnNothing(a, gids, r);
    }
  }

  lemma LeftOwnNothing(a: seq<Gid>, gids: seq<Gid>, r: Config)
    requires SpreadFrom(a, r) && (forall s :: 0 <= s < |a| ==> a[s] == 0 || a[s] !in gids)
    requires forall g :: g in gids ==> g !in r.groups
    ensures forall s :: 0 <= s < |a| && r.shards[s] in gids ==> r.shards[s] == -1 && forall g :: g in r.groups ==> g == 0
  {
    hide Changed;
    var groups := r.groups.Keys;
    forall s | 0 <= s < |a| && r.shards[s] in gids ensures r.shards[s] == -1 && forall g :: g in groups ==> g == 0 {
      var h := r.shards[s];
      assert h in Holders(groups, a);
      if g :| g in Gids(groups, a) {
        assert false;
      } else {
        assert forall g :: g in groups ==> g == 0 || g in Gids(groups, a);
      }
    }
  }

  /** After a move the shard is on the named gid, and nothing else has changed. */
  lemma MoveMeaning(c: Config, shard: nat, gid: Gid, n: nat)
    requires ConfigOk(c, n) && shard < n
    ensures
      var r := Next(c, Move(shard, gid), n);
      && |r.shards| == n && r.shards[shard] == gid && r.groups == c.groups
      && forall s :: 0 <= s < n && s != shard ==> r.shards[s] == c.shards[s]
  {
  }

  // Gids are positive, and every shard is on a group that has joined; without groups nobody has any.
  ghost predicate Placed(c: Config) {
    && (forall g :: g in c.groups ==> g > 0)
    && forall s :: 0 <= s < |c.shards| ==> if c.groups == map[] then c.shards[s] == 0 else c.shards[s] in c.groups
  }

  lemma HoldersJoined(groups: set<Gid>, a: seq<Gid>)
    requires groups != {} && 0 !in groups && forall s :: 0 <= s < |a| ==> a[s] == 0 || a[s] in groups
    ensures forall g :: g in Holders(groups, a) <==> g in groups
  {
    assert Gids(groups, a) == groups;
    SomeGid(groups);
  }

  lemma AdjustedPlaced(groups: map<Gid, seq<string>>, a: seq<Gid>, num: nat)
    requires (forall g :: g in groups ==> g > 0) && forall s :: 0 <= s < |a| ==> a[s] == 0 || a[s] in groups
    ensures Placed(Config(num, Adjusted(groups.Keys, a), groups))
  {
    hide Rebalanced, Holders, Start;
    if groups.Keys != {} {
      AdjustedBalanced(groups.Keys, a);
      HoldersJoined(groups.Keys, a);
    }
  }

  /** Every operation keeps all shards on joined groups, as long as gids are positive and shards are moved to joined
      groups only. */
  lemma NextPlaced(c: Config, op: Op, n: nat)
    requires ConfigOk(c, n) && OpOk(op, n) && Placed(c) && Sensible(c, op)
    ensures Placed(Next(c, op, n))
  {
    hide Adjusted;
    match op
    case Join(servers) => AdjustedPlaced(c.groups + servers, c.shards, c.num + 1);
    case Leave(gids) =>
      AdjustedPlaced(c.groups - Elements(gids), Vacated(c.shards, gids), c.num + 1);
    case Move(shard, gid) =>
  }
}
