/** The shard controller as it applies its log: the rebalancing loop in place on an array, and the operations that append
    configurations. */
module ShardCtrler {
  import opened Basics
  import opened Loads
  import opened Rebalance
  import opened CtrlerSpec
  import R = Requests

  // ---------------------------------------------------------------- the largest and the smallest group

  ghost predicate Increasing(gids: seq<Gid>) {
    forall i, j :: 0 <= i < j < |gids| ==> gids[i] < gids[j]
  }

  method InsertGid(gids: seq<Gid>, g: Gid) returns (r: seq<Gid>)
    requires Increasing(gids) && g !in gids
    ensures Increasing(r) && g in r && (forall x :: x in gids ==> x in r) && (forall x :: x in r ==> x == g || x in gids)
  {
    var i := |gids|;
    while i > 0 && g < gids[i - 1]
      invariant 0 <= i <= |gids|
      invariant forall j :: i <= j < |gids| ==> g < gids[j]
    {
      i := i - 1;
    }
    r := gids[..i] + [g] + gids[i..];
    assert r[i] == g;
    forall x | x in gids ensures x in r {
      var j :| 0 <= j < |gids| && gids[j] == x;
      assert r[if j < i then j else j + 1] == x;
    }
  }

  // The keys of a map come in any order; sorting them makes every replica see the same.
  method SortedGids(keys: set<Gid>) returns (gids: seq<Gid>)
    ensures Increasing(gids) && forall g :: g in gids <==> g in keys
  {
    gids := [];
    var rest := keys;
    while rest != {}
      invariant rest <= keys && Increasing(gids)
      invariant forall g :: g in gids <==> g in keys && g !in rest
      decreases |rest|
    {
      var g :| g in rest;
      gids := InsertGid(gids, g);
      rest := rest - {g};
    }
  }

  // The extremes among the gids seen so far.
  ghost predicate MaxSoFar(cnt: map<Gid, seq<nat>>, seen: seq<Gid>, maxGid: Gid, mx: int)
    requires forall g :: g in seen ==> g in cnt
  {
    if HasIdle(cnt) && 0 in seen then maxGid == 0 && mx == |cnt[0]|
    else if forall g :: g in seen ==> g == 0 then maxGid == -1 && mx == MIN_INT
    else
      && maxGid != 0 && maxGid in seen && mx == |cnt[maxGid]|
      && forall g :: g in seen && g != 0 ==> |cnt[g]| < mx || (|cnt[g]| == mx && maxGid <= g)
  }

  ghost predicate MinSoFar(cnt: map<Gid, seq<nat>>, seen: seq<Gid>, minGid: Gid, mn: int)
    requires forall g :: g in seen ==> g in cnt
  {
    if forall g :: g in seen ==> g == 0 then minGid == -1 && mn == MAX_INT
    else
      && minGid != 0 && minGid in seen && mn == |cnt[minGid]|
      && forall g :: g in seen && g != 0 ==> mn < |cnt[g]| || (|cnt[g]| == mn && minGid <= g)
  }

  /** Nobody, if nobody has shards, else the first of the largest, and the first of the smallest.  Where there is no gid
      but 0 both are -1, as if -1 were a gid without shards. */
  method FindMaxAndMinGid(cnt: map<Gid, seq<nat>>) returns (maxGid: Gid, mx: int, minGid: Gid, mn: int)
    requires forall g :: g in cnt ==> |cnt[g]| < MAX_INT
    ensures IsMax(WithNobody(cnt), maxGid) && mx == if maxGid in cnt then |cnt[maxGid]| else MIN_INT
    ensures IsMin(WithNobody(cnt), minGid) && mn == if minGid in cnt then |cnt[minGid]| else MAX_INT
    // ties go to the smallest gid
    ensures forall g :: g in cnt && g != 0 && maxGid != 0 ==> |cnt[g]| < mx || (|cnt[g]| == mx && maxGid <= g)
    ensures forall g :: g in cnt && g != 0 ==> mn < |cnt[g]| || (mn == |cnt[g]| && minGid <= g)
    ensures 0 in cnt && cnt[0] != [] ==> maxGid == 0
  {
    hide MaxSoFar, MinSoFar, IsMax, IsMin, Increasing;
    maxGid, mx, minGid, mn := -1, MIN_INT, -1, MAX_INT;
    var gids := SortedGids(cnt.Keys);
    var k := 0;
    NoneSeen(cnt);
    assert gids[..0] == [];
    while k < |gids|
      invariant 0 <= k <= |gids|
      invariant MaxSoFar(cnt, gids[..k], maxGid, mx)
      invariant MinSoFar(cnt, gids[..k], minGid, mn)
    {
      var gid := gids[k];
      assert gid in gids && gids[..k + 1] == gids[..k] + [gid];
      EarlierSmaller(gids, k);
      var m := |cnt[gid]|;
      MaxStep(cnt, gids[..k], gid, maxGid, mx);
      MinStep(cnt, gids[..k], gid, minGid, mn);
      if maxGid != 0 && ((gid == 0 && m > 0) || (gid != 0 && m > mx)) {
        maxGid, mx := gid, m;
      }
      if gid != 0 && m < mn {
        minGid, mn := gid, m;
      }
      k := k + 1;
    }
    assert gids[..k] == gids;
    AllSeen(cnt, gids, maxGid, mx, minGid, mn);
    TiesToSmallest(cnt, maxGid, mx, minGid, mn);
  }

  lemma TiesToSmallest(cnt: map<Gid, seq<nat>>, maxGid: Gid, mx: int, minGid: Gid, mn: int)
    requires IsMax(WithNobody(cnt), maxGid) && mx == if maxGid in cnt then |cnt[maxGid]| else MIN_INT
    requires IsMin(WithNobody(cnt), minGid) && mn == if minGid in cnt then |cnt[minGid]| else MAX_INT
    ensures forall g :: g in cnt && g != 0 && maxGid != 0 ==> |cnt[g]| < mx || (|cnt[g]| == mx && maxGid <= g)
    ensures forall g :: g in cnt && g != 0 ==> mn < |cnt[g]| || (mn == |cnt[g]| && minGid <= g)
    ensures 0 in cnt && cnt[0] != [] ==> maxGid == 0
  {
    assert forall g :: g in cnt ==> g in WithNobody(cnt);
  }

  lemma NoneSeen(cnt: map<Gid, seq<nat>>)
    ensures MaxSoFar(cnt, [], -1, MIN_INT) && MinSoFar(cnt, [], -1, MAX_INT)
  {
  }

  lemma EarlierSmaller(gids: seq<Gid>, k: nat)
    requires k < |gids| && Increasing(gids)
    ensures forall g :: g in gids[..k] ==> g in gids && g < gids[k]
  {
  }

  lemma MaxStep(cnt: map<Gid, seq<nat>>, seen: seq<Gid>, gid: Gid, maxGid: Gid, mx: int)
    requires (forall g :: g in seen ==> g in cnt && g < gid) && gid in cnt
    requires MaxSoFar(cnt, seen, maxGid, mx)
    ensures
      var m := |cnt[gid]|;
      var take := maxGid != 0 && ((gid == 0 && m > 0) || (gid != 0 && m > mx));
      MaxSoFar(cnt, seen + [gid], if take then gid else maxGid, if take then m else mx)
  {
    assert forall g :: g in seen + [gid] <==> g in seen || g == gid;
  }

  lemma MinStep(cnt: map<Gid, seq<nat>>, seen: seq<Gid>, gid: Gid, minGid: Gid, mn: int)
    requires (forall g :: g in seen ==> g in cnt && g < gid) && gid in cnt
    requires forall g :: g in cnt ==> |cnt[g]| < MAX_INT
    requires MinSoFar(cnt, seen, minGid, mn)
    ensures
      var m := |cnt[gid]|;
      var take := gid != 0 && m < mn;
      MinSoFar(cnt, seen + [gid], if take then gid else minGid, if take then m else mn)
  {
    assert forall g :: g in seen + [gid] <==> g in seen || g == gid;
  }

  lemma AllSeen(cnt: map<Gid, seq<nat>>, gids: seq<Gid>, maxGid: Gid, mx: int, minGid: Gid, mn: int)
    requires forall g :: g in gids <==> g in cnt
    requires MaxSoFar(cnt, gids, maxGid, mx) && MinSoFar(cnt, gids, minGid, mn)
    ensures IsMax(WithNobody(cnt), maxGid) && mx == if maxGid in cnt then |cnt[maxGid]| else MIN_INT
    ensures IsMin(WithNobody(cnt), minGid) && mn == if minGid in cnt then |cnt[minGid]| else MAX_INT
  {
    if g :| g in cnt && g != 0 {
      assert g in gids;
    }
  }

  // ---------------------------------------------------------------- the rebalancing loop

  method CountShards(groups: set<Gid>, a: array<Gid>) returns (cnt: map<Gid, seq<nat>>)
    ensures cnt == Lists(groups, a[..], a.Length)
  {
    cnt := map g | g in groups :: [];
    assert cnt == Lists(groups, a[..], 0);
    var s := 0;
    while s < a.Length
      invariant 0 <= s <= a.Length
      invariant cnt == Lists(groups, a[..], s)
    {
      ListsNext(groups, a[..], s);
      var gid := a[s];
      cnt := cnt[gid := (if gid in cnt then cnt[gid] else []) + [s]];
      s := s + 1;
    }
  }

  lemma ListsNext(groups: set<Gid>, a: seq<Gid>, s: nat)
    requires s < |a|
    ensures
      var cnt := Lists(groups, a, s);
      Lists(groups, a, s + 1) == cnt[a[s] := (if a[s] in cnt then cnt[a[s]] else []) + [s]]
  {
    var cnt := Lists(groups, a, s);
    assert a[..s + 1] == a[..s] + [a[s]];
    assert Elements(a[..s + 1]) == Elements(a[..s]) + {a[s]};
    if a[s] !in cnt {
      NoPlaces(a, s, a[s]);
    }
  }

  lemma {:induction false} NoPlaces(a: seq<Gid>, n: nat, g: Gid)
    requires n <= |a| && g !in a[..n]
    ensures Places(a, n, g) == []
  {
    if n > 0 {
      assert a[..n] == a[..n - 1] + [a[n - 1]];
      NoPlaces(a, n - 1, g);
    }
  }

  lemma NextMove(cnt: map<Gid, seq<nat>>, a: seq<Gid>, ks: seq<Gid>, M: Gid, m: Gid)
    requires Tallied(cnt, a) && Enumerates(cnt, ks) && IsMax(cnt, M) && IsMin(cnt, m)
    ensures
      if Done(cnt, M, m) then Rebalanced(cnt, a, ks) == a
      else
        && cnt[M] != [] && cnt[M][0] < |a| && M != m
        && Tallied(Moved(cnt, M, m), a[cnt[M][0] := m]) && Enumerates(Moved(cnt, M, m), ks)
        && Rebalanced(cnt, a, ks) == Rebalanced(Moved(cnt, M, m), a[cnt[M][0] := m], ks)
        && 0 <= DistanceOf(a[cnt[M][0] := m], ks) < DistanceOf(a, ks)
  {
    hide Tallied, Enumerates, DistanceOf, Moved;
    OneMaxOneMin(cnt, M, MaxOf(cnt, ks));
    OneMaxOneMin(cnt, m, MinOf(cnt, ks));
    if !Done(cnt, M, m) {
      MoveReady(cnt, a, M, m, ks);
    }
  }

  lemma {:induction false} CountBound(a: seq<Gid>, g: Gid)
    ensures Count(a, g) <= |a|
  {
    if a != [] {
      CountBound(a[..|a| - 1], g);
    }
  }

  lemma TalliedBound(cnt: map<Gid, seq<nat>>, a: seq<Gid>)
    requires Tallied(WithNobody(cnt), a) && |a| < MAX_INT
    ensures forall g :: g in cnt ==> |cnt[g]| < MAX_INT
  {
    forall g | g in cnt ensures |cnt[g]| < MAX_INT {
      CountBound(a, g);
      assert g in WithNobody(cnt);
    }
  }

  lemma NoGroups(a: seq<Gid>)
    ensures Adjusted({}, a) == a
  {
  }

  lemma Begin(groups: set<Gid>, a: seq<Gid>)
    requires groups != {}
    ensures
      var cnt, ks := WithNobody(Lists(groups, a, |a|)), Holders(groups, a);
      && Tallied(cnt, a) && Enumerates(cnt, ks) && ks != []
      && Rebalanced(cnt, a, ks) == Adjusted(groups, a) && DistanceOf(a, ks) >= 0
  {
    StartTallied(groups, a);
    DistanceNat(a, Holders(groups, a));
  }

  /** One shard at a time from the largest group, or from nobody, to the smallest, until the difference is at most one.
      The result is the same whatever order the maps are walked in. */
  method AdjustShards(groups: set<Gid>, a: array<Gid>)
    requires a.Length < MAX_INT
    modifies a
    ensures a[..] == Adjusted(groups, old(a[..]))
  {
    hide Tallied, Enumerates, DistanceOf, Rebalanced, Lists, Holders, Adjusted, WithNobody;
    if groups == {} {
      NoGroups(a[..]);
      return;
    }
    var cnt: map<Gid, seq<nat>> := CountShards(groups, a);
    ghost var ks := Holders(groups, a[..]);
    Begin(groups, a[..]);
    while true
      invariant Tallied(WithNobody(cnt), a[..]) && Enumerates(WithNobody(cnt), ks)
      invariant Rebalanced(WithNobody(cnt), a[..], ks) == Adjusted(groups, old(a[..]))
      invariant DistanceOf(a[..], ks) >= 0
      decreases DistanceOf(a[..], ks)
    {
      hide IsMax, IsMin;
      TalliedBound(cnt, a[..]);
      var maxGid, mx, minGid, mn := FindMaxAndMinGid(cnt);
      NextMove(WithNobody(cnt), a[..], ks, maxGid, minGid);
      EndTest(cnt, maxGid, mx, minGid, mn);
      if maxGid != 0 && mx - mn <= 1 {
        return;
      }
      MoveInPlace(cnt, maxGid, minGid);
      var shardId := cnt[maxGid][0];
      ghost var next := a[..][shardId := minGid];
      cnt := cnt[maxGid := cnt[maxGid][1..]];
      cnt := cnt[minGid := (if minGid in cnt then cnt[minGid] else []) + [shardId]];
      a[shardId] := minGid;
      assert a[..] == next;
    }
  }

  // The loop's test says that no move is left.  (A machine's `MIN_INT - MAX_INT` is 1, which passes the test as well.)
  lemma EndTest(cnt: map<Gid, seq<nat>>, maxGid: Gid, mx: int, minGid: Gid, mn: int)
    requires IsMax(WithNobody(cnt), maxGid) && mx == if maxGid in cnt then |cnt[maxGid]| else MIN_INT
    requires IsMin(WithNobody(cnt), minGid) && mn == if minGid in cnt then |cnt[minGid]| else MAX_INT
    ensures (maxGid != 0 && mx - mn <= 1) <==> Done(WithNobody(cnt), maxGid, minGid)
  {
  }

  // The assignments of one round make the move.
  lemma MoveInPlace(cnt: map<Gid, seq<nat>>, M: Gid, m: Gid)
    requires IsMax(WithNobody(cnt), M) && IsMin(WithNobody(cnt), m) && !Done(WithNobody(cnt), M, m)
    ensures M in cnt && cnt[M] != [] && WithNobody(cnt)[M] == cnt[M]
    ensures
      var cnt1 := cnt[M := cnt[M][1..]];
      var cnt2 := cnt1[m := (if m in cnt1 then cnt1[m] else []) + [cnt[M][0]]];
      WithNobody(cnt2) == Moved(WithNobody(cnt), M, m)
  {
    MaxHasShards(WithNobody(cnt), M, m);
    var cnt1 := cnt[M := cnt[M][1..]];
    var cnt2 := cnt1[m := (if m in cnt1 then cnt1[m] else []) + [cnt[M][0]]];
    assert m in cnt2 && m != 0;
  }

  // ---------------------------------------------------------------- the controller

  lemma JoinIs(c: Config, servers: map<Gid, seq<string>>, n: nat)
    requires ConfigOk(c, n)
    ensures Next(c, Join(servers), n) == Config(c.num + 1, Adjusted((c.groups + servers).Keys, c.shards), c.groups + servers)
  {
  }

  lemma LeaveGroups(c: Config, gids: seq<Gid>, n: nat)
    requires ConfigOk(c, n)
    ensures
      var r := Next(c, Leave(gids), n);
      (forall g :: g in gids ==> g !in r.groups) && OthersStay(c, r, Elements(gids))
  {
    hide Next, SpreadFrom;
    LeaveMeaning(c, gids, n);
  }

  datatype Request = Request(client: nat, id: nat, op: Command)

  datatype Command = Change(change: Op) | Query(num: int)

  // The configuration a query asks for: the one of that number, or the latest.
  ghost function Asked(configs: seq<Config>, num: int): nat
    requires configs != []
  {
    if 0 <= num < |configs| then num else |configs| - 1
  }

  // A repeated query gets the zero configuration.
  ghost function Answer(configs: seq<Config>, last: map<nat, nat>, client: nat, id: nat, num: int, n: nat): Config
    requires configs != []
  {
    if R.IsInvalidRequest(last, client, id) then Config(0, seq(n, i => 0), map[]) else configs[Asked(configs, num)]
  }

  /** A query is answered with the configuration it asks for if and only if the controller has not seen this number or a
      later one of the client, or the query asks for the very first configuration. */
  lemma QueryExactly(configs: seq<Config>, last: map<nat, nat>, client: nat, id: nat, num: int, n: nat)
    requires configs != [] && configs[0] == Config(0, seq(n, i => 0), map[])
    requires forall i :: 0 <= i < |configs| ==> configs[i].num == i
    ensures Answer(configs, last, client, id, num, n) == configs[Asked(configs, num)] <==>
      !R.IsInvalidRequest(last, client, id) || Asked(configs, num) == 0
  {
    assert configs[Asked(configs, num)].num == Asked(configs, num);
  }

  class ShardCtrler {
    const n: nat
    var configs: seq<Config>
    var lastRequestMap: map<nat, nat>

    // The configurations are numbered from 0 without a gap, and nobody owns anything in the first one.
    ghost predicate Valid()
      reads this
    {
      && n < MAX_INT && configs != [] && configs[0] == Config(0, seq(n, i => 0), map[])
      && (forall i :: 0 <= i < |configs| ==> configs[i].num == i && ConfigOk(configs[i], n))
    }

    constructor (n: nat)
      requires n < MAX_INT
      ensures Valid() && this.n == n && lastRequestMap == map[]
      ensures configs == [Config(0, seq(n, i => 0), map[])]
    {
      this.n := n;
      configs := [Config(0, seq(n, i => 0), map[])];
      lastRequestMap := map[];
    }

    method CopyShards() returns (a: array<Gid>)
      requires Valid()
      ensures fresh(a) && a.Length == n && a[..] == configs[|configs| - 1].shards
    {
      var c := configs[|configs| - 1];
      a := new Gid[n](i requires 0 <= i < |c.shards| => c.shards[i]);
    }

    method CopyGroups() returns (groups: map<Gid, seq<string>>)
      requires Valid()
      ensures groups == configs[|configs| - 1].groups
    {
      var c := configs[|configs| - 1];
      groups := map[];
      var rest := c.groups.Keys;
      while rest != {}
        invariant rest <= c.groups.Keys
        invariant groups.Keys == c.groups.Keys - rest && forall g :: g in groups ==> groups[g] == c.groups[g]
        decreases |rest|
      {
        var gid :| gid in rest;
        groups := groups[gid := c.groups[gid]];
        rest := rest - {gid};
      }
    }

    method AddGroups(groups: map<Gid, seq<string>>, servers: map<Gid, seq<string>>) returns (r: map<Gid, seq<string>>)
      ensures r == groups + servers
    {
      r := groups;
      var rest := servers.Keys;
      while rest != {}
        invariant rest <= servers.Keys && r.Keys == groups.Keys + (servers.Keys - rest)
        invariant forall g :: g in r ==> r[g] == if g in servers && g !in rest then servers[g] else groups[g]
        decreases |rest|
      {
        var gid :| gid in rest;
        r := r[gid := servers[gid]];
        rest := rest - {gid};
      }
    }

    method Append(c: Config)
      requires Valid() && ConfigOk(c, n) && c.num == |configs|
      modifies `configs
      ensures Valid() && configs == old(configs) + [c]
    {
      configs := configs + [c];
    }

    method ProcessJoin(servers: map<Gid, seq<string>>)
      requires Valid()
      modifies `configs
      ensures Valid() && configs == old(configs) + [Next(old(configs)[|old(configs)| - 1], Join(servers), n)]
      ensures forall g :: g in servers ==> g in configs[|configs| - 1].groups && configs[|configs| - 1].groups[g] == servers[g]
      ensures OthersStay(old(configs)[|old(configs)| - 1], configs[|configs| - 1], servers.Keys)
    {
      hide Next, Adjusted, SpreadFrom;
      ghost var c := configs[|configs| - 1];
      NextOk(c, Join(servers), n);
      JoinMeaning(c, servers, n);
      JoinIs(c, servers, n);
      var groups := CopyGroups();
      var a := CopyShards();
      groups := AddGroups(groups, servers);
      AdjustShards(groups.Keys, a);
      Append(Config(configs[|configs| - 1].num + 1, a[..], groups));
    }

    method Vacate(gid: Gid, a: array<Gid>, ghost was: seq<Gid>, ghost gone: seq<Gid>)
      requires a[..] == Vacated(was, gone)
      modifies a
      ensures a[..] == Vacated(was, gone + [gid])
    {
      var s := 0;
      while s < a.Length
        invariant 0 <= s <= a.Length
        invariant forall i :: 0 <= i < a.Length ==> a[i] == if i < s && old(a[i]) == gid then 0 else old(a[i])
      {
        if gid == a[s] {
          a[s] := 0;
        }
        s := s + 1;
      }
      assert forall i :: 0 <= i < a.Length ==> old(a[i]) == Vacated(was, gone)[i];
    }

    method ProcessLeave(gids: seq<Gid>)
      requires Valid()
      modifies `configs
      ensures Valid() && configs == old(configs) + [Next(old(configs)[|old(configs)| - 1], Leave(gids), n)]
      ensures forall g :: g in gids ==> g !in configs[|configs| - 1].groups
      ensures OthersStay(old(configs)[|old(configs)| - 1], configs[|configs| - 1], Elements(gids))
    {
      ghost var c := configs[|configs| - 1];
      NextOk(c, Leave(gids), n);
      LeaveGroups(c, gids, n);
      var groups := CopyGroups();
      var a := CopyShards();
      var k := 0;
      assert c.groups - Elements([]) == c.groups;
      while k < |gids|
        invariant 0 <= k <= |gids| && configs == old(configs)
        invariant a[..] == Vacated(c.shards, gids[..k])
        invariant groups == c.groups - Elements(gids[..k])
      {
        assert gids[..k + 1] == gids[..k] + [gids[k]];
        Vacate(gids[k], a, c.shards, gids[..k]);
        groups := groups - {gids[k]};
        k := k + 1;
      }
      assert gids[..k] == gids;
      AdjustShards(groups.Keys, a);
      Append(Config(configs[|configs| - 1].num + 1, a[..], groups));
    }

    method ProcessMove(shard: nat, gid: Gid)
      requires Valid() && shard < n
      modifies `configs
      ensures Valid() && configs == old(configs) + [Next(old(configs)[|old(configs)| - 1], Move(shard, gid), n)]
      ensures configs[|configs| - 1].shards[shard] == gid
    {
      MoveMeaning(configs[|configs| - 1], shard, gid, n);
      var groups := CopyGroups();
      var a := CopyShards();
      a[shard] := gid;
      Append(Config(configs[|configs| - 1].num + 1, a[..], groups));
    }

    method ProcessQuery(num: int) returns (c: Config)
      requires Valid() && num >= -1
      ensures c in configs && c.num == if 0 <= num < |configs| then num else |configs| - 1
    {
      if num == -1 || num >= |configs| {
        return configs[|configs| - 1];
      }
      return configs[num];
    }

    // A repeated request changes nothing, and a repeated query answers with an empty configuration.
    method Execute(r: Request) returns (answer: Config)
      requires Valid() && (r.op.Change? ==> OpOk(r.op.change, n)) && (r.op.Query? ==> r.op.num >= -1)
      modifies this
      ensures Valid()
      ensures if R.IsInvalidRequest(old(lastRequestMap), r.client, r.id)
        then configs == old(configs) && lastRequestMap == old(lastRequestMap) && answer == Config(0, seq(n, i => 0), map[])
        else
          && lastRequestMap == R.UpdateLastRequest(old(lastRequestMap), r.client, r.id)
          && (r.op.Change? ==> configs == old(configs) + [Next(old(configs)[|old(configs)| - 1], r.op.change, n)])
          && (r.op.Query? ==> configs == old(configs) && answer in configs)
          && (r.op.Query? ==> answer.num == if 0 <= r.op.num < |configs| then r.op.num else |configs| - 1)
      ensures r.op.Query? ==> answer == Answer(old(configs), old(lastRequestMap), r.client, r.id, r.op.num, n)
    {
      answer := Config(0, seq(n, i => 0), map[]);
      if r.client in lastRequestMap && r.id <= lastRequestMap[r.client] {
        return;
      }
      match r.op {
        case Change(Join(servers)) => ProcessJoin(servers);
        case Change(Leave(gids)) => ProcessLeave(gids);
        case Change(Move(shard, gid)) => ProcessMove(shard, gid);
        case Query(num) => answer := ProcessQuery(num);
      }
      if r.client !in lastRequestMap || lastRequestMap[r.client] < r.id {
        lastRequestMap := lastRequestMap[r.client := r.id];
      }
    }
  }
}
