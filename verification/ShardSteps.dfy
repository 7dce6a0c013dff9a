/** How the invariant of one shard survives when one group moves on. */
module ShardSteps {
  import opened Requests
  import opened ShardGroup
  import opened ShardProtocol
  import opened ShardInvariant

  // The group goes on to a later configuration, or stays and neither starts to migrate the shard nor to give it away.
  ghost predicate Later(p: Setup, g: nat, x: Group, x': Group, s: nat)
    requires p.WellFormed()
  {
    && GroupOk(p, g, x) && GroupOk(p, g, x') && s < p.n
    && x.current.num <= x'.current.num
    && (x'.current.num == x.current.num ==>
          && (x.shards[s].state == Serving ==> x'.shards[s].state == Serving)
          && (x.shards[s].state != BePulling ==> x'.shards[s].state != BePulling))
  }

  // Data and token stay, or they change in the hands of the group `g` that takes the token or holds it.
  ghost predicate Holds(p: Setup, now: seq<Group>, g: nat, s: nat, t: nat, ws: seq<Request>, t': nat, ws': seq<Request>)
    requires p.WellFormed() && g < |now|
  {
    (t' == t && ws' == ws) || (t <= t' && p.Owner(t', s) == g && now[g].current.num <= t')
  }

  lemma PastStays(p: Setup, now: seq<Group>, g: nat, x': Group, h: nat, x: Group, s: nat, t: nat, ws: seq<Request>, t': nat, ws': seq<Request>)
    requires p.WellFormed() && g < |now| && h < |now| && Later(p, g, now[g], x', s)
    requires Holds(p, now, g, s, t, ws, t', ws')
    requires PastOk(p, h, x, now[h], s, t, ws)
    ensures PastOk(p, h, x, now[g := x'][h], s, t', ws')
  {
    hide Replay, Covers;
  }

  lemma ReleasedStays(p: Setup, now: seq<Group>, g: nat, x': Group, m: nat, s: nat)
    requires p.WellFormed() && m > 0 && g < |now| && Later(p, g, now[g], x', s)
    requires Released(p, now, m, s)
    ensures Released(p, now[g := x'], m, s)
  {
  }

  lemma CommandStays(p: Setup, now: seq<Group>, g: nat, x': Group, h: nat, cmd: Command, s: nat, t: nat, ws: seq<Request>, t': nat, ws': seq<Request>)
    requires p.WellFormed() && g < |now| && h < |now| && Later(p, g, now[g], x', s)
    requires Holds(p, now, g, s, t, ws, t', ws')
    requires CommandOk(p, now, h, cmd, s, t, ws)
    ensures CommandOk(p, now[g := x'], h, cmd, s, t', ws')
  {
    hide Replay, Covers, Released;
    if cmd.AdjustShardState? && s in cmd.ids {
      ReleasedStays(p, now, g, x', cmd.num, s);
    }
  }

  // Everything that is not about the moving group follows from the move being to a later state.
  lemma ShardMoves(p: Setup, st: State, st': State, g: nat, x': Group, s: nat)
    requires p.WellFormed() && Shaped(p, st) && Shaped(p, st') && 0 < g < p.groups && s < p.n && ShardOk(p, st, s)
    requires st'.now == st.now[g := x'] && st'.past == st.past[g := st.past[g] + {x'}] && st'.pending == st.pending
    requires Later(p, g, st.now[g], x', s)
    requires Holds(p, st.now, g, s, st.token[s], st.accepted[s], st'.token[s], st'.accepted[s])
    requires PastOk(p, g, x', x', s, st'.token[s], st'.accepted[s])
    requires HolderOk(p, st'.now, s, st'.token[s], st'.accepted[s])
    requires forall h :: 0 < h < p.groups ==> NowOk(p, h, st'.now[h], s, st'.token[s])
    requires forall m: nat :: m < |p.configs| ==> ReachedOk(p, st'.now, m, s, st'.token[s])
    requires forall m: nat :: m < |p.configs| ==> PassedOk(p, st'.now, m, s, st'.token[s])
    requires AcceptedOk(p, st'.done, st'.accepted[s], s)
    ensures ShardOk(p, st', s)
  {
    hide PastOk, CommandOk, HolderOk, NowOk, ReachedOk, PassedOk, AcceptedOk, Later, Holds;
    var t, ws, t', ws' := st.token[s], st.accepted[s], st'.token[s], st'.accepted[s];
    forall h, x | 0 < h < p.groups && x in st'.past[h] ensures PastOk(p, h, x, st'.now[h], s, t', ws') {
      if x in st.past[h] {
        PastStays(p, st.now, g, x', h, x, s, t, ws, t', ws');
      }
    }
    forall h, cmd | 0 < h < p.groups && cmd in st'.pending[h] ensures CommandOk(p, st'.now, h, cmd, s, t', ws') {
      CommandStays(p, st.now, g, x', h, cmd, s, t, ws, t', ws');
    }
  }

  // ---------------------------------------------------------------- nothing happens to the shard

  ghost predicate Extends(last: map<nat, nat>, last': map<nat, nat>) {
    forall c :: c in last ==> c in last' && last[c] <= last'[c]
  }

  lemma CoversMore(last: map<nat, nat>, last': map<nat, nat>, ws: seq<Request>)
    requires Covers(last, ws) && Extends(last, last')
    ensures Covers(last', ws)
  {
  }

  lemma QuietShard(p: Setup, st: State, st': State, g: nat, x': Group, s: nat)
    requires p.WellFormed() && Shaped(p, st) && Shaped(p, st') && 0 < g < p.groups && s < p.n && ShardOk(p, st, s)
    requires st'.now == st.now[g := x'] && st'.past == st.past[g := st.past[g] + {x'}] && st'.pending == st.pending
    requires st'.token[s] == st.token[s] && st'.accepted[s] == st.accepted[s]
    requires x'.current == st.now[g].current && x'.last == st.now[g].last && |x'.shards| == p.n
    requires x'.shards[s] == st.now[g].shards[s] && Extends(st.now[g].lastRequest, x'.lastRequest)
    requires st.now[g] in st.past[g] && AcceptedOk(p, st'.done, st'.accepted[s], s)
    ensures ShardOk(p, st', s)
  {
    hide CommandOk, AcceptedOk, Replay, Covers, Extends, ShardOk;
    QuietHolder(p, st, st', g, x', s);
    QuietCounts(p, st, st', g, x', s);
    ShardMoves(p, st, st', g, x', s);
  }

  lemma QuietHolder(p: Setup, st: State, st': State, g: nat, x': Group, s: nat)
    requires p.WellFormed() && Shaped(p, st) && Shaped(p, st') && 0 < g < p.groups && s < p.n && ShardOk(p, st, s)
    requires st'.now == st.now[g := x']
    requires x'.current == st.now[g].current && x'.last == st.now[g].last && |x'.shards| == p.n
    requires x'.shards[s] == st.now[g].shards[s] && Extends(st.now[g].lastRequest, x'.lastRequest)
    requires st.now[g] in st.past[g]
    ensures HolderOk(p, st'.now, s, st.token[s], st.accepted[s])
    ensures PastOk(p, g, x', x', s, st.token[s], st.accepted[s])
  {
    hide CommandOk, AcceptedOk, Replay, Covers, Extends, ReachedOk, PassedOk, NowOk;
    var x, t, ws := st.now[g], st.token[s], st.accepted[s];
    assert PastOk(p, g, x, st.now[g], s, t, ws);
    if Covers(x.lastRequest, ws) {
      CoversMore(x.lastRequest, x'.lastRequest, ws);
    }
  }

  lemma QuietCounts(p: Setup, st: State, st': State, g: nat, x': Group, s: nat)
    requires p.WellFormed() && Shaped(p, st) && Shaped(p, st') && 0 < g < p.groups && s < p.n && ShardOk(p, st, s)
    requires st'.now == st.now[g := x']
    requires x'.current == st.now[g].current && x'.last == st.now[g].last && |x'.shards| == p.n
    requires x'.shards[s] == st.now[g].shards[s]
    ensures Later(p, g, st.now[g], x', s)
    ensures forall h :: 0 < h < p.groups ==> NowOk(p, h, st'.now[h], s, st.token[s])
    ensures forall m: nat :: m < |p.configs| ==> ReachedOk(p, st'.now, m, s, st.token[s])
    ensures forall m: nat :: m < |p.configs| ==> PassedOk(p, st'.now, m, s, st.token[s])
  {
    hide CommandOk, AcceptedOk, PastOk, HolderOk;
    var t := st.token[s];
    assert NowOk(p, g, st.now[g], s, t);
    forall h | 0 < h < p.groups ensures NowOk(p, h, st'.now[h], s, t) {
      assert NowOk(p, h, st.now[h], s, t);
    }
    forall m: nat | m < |p.configs| ensures ReachedOk(p, st'.now, m, s, t) && PassedOk(p, st'.now, m, s, t) {
      assert ReachedOk(p, st.now, m, s, t) && PassedOk(p, st.now, m, s, t);
    }
  }

  // ---------------------------------------------------------------- a new configuration

  // The last configuration up to `k` in which the shard had an owner, if any.
  lemma {:induction false} LastOwned(p: Setup, s: nat, k: nat) returns (j: nat, none: bool)
    requires p.WellFormed() && p.Owner(k, s) == 0
    ensures none ==> forall m: nat :: m <= k ==> p.Owner(m, s) == 0
    ensures !none ==> p.Owner(j, s) != 0 && p.Gap(s, j, k)
  {
    if k == 0 {
      j, none := 0, true;
    } else if p.Owner(k - 1, s) != 0 {
      j, none := k - 1, false;
    } else {
      j, none := LastOwned(p, s, k - 1);
    }
  }

  // Taking over a shard that nobody owned: it is new, or the group kept it since it last owned it.
  lemma UnownedUntouched(p: Setup, st: State, g: nat, s: nat)
    requires p.WellFormed() && p.KeepsOwner() && Shaped(p, st) && 0 < g < p.groups && s < p.n && ShardOk(p, st, s)
    requires st.now[g].current.num + 1 < |p.configs| && p.Owner(st.now[g].current.num, s) == 0
    requires p.Owner(st.now[g].current.num + 1, s) == g
    ensures forall m: nat :: st.token[s] < m <= st.now[g].current.num ==> p.Owner(m, s) == 0
    ensures st.token[s] <= st.now[g].current.num
    ensures st.token[s] == 0 || (p.Owner(st.token[s], s) == g && p.Gap(s, st.token[s], st.now[g].current.num))
  {
    hide PastOk, CommandOk, NowOk, AcceptedOk, Replay, Covers;
    var k, t := st.now[g].current.num, st.token[s];
    assert ReachedOk(p, st.now, k + 1, s, t);
    var j, none := LastOwned(p, s, k);
    if !none {
      assert !p.PassedOn(s, j, k);
      assert PassedOk(p, st.now, j, s, t);
    }
  }

  ghost predicate TakesConfig(p: Setup, st: State, st': State, g: nat, x': Group, s: nat)
    requires p.WellFormed() && Shaped(p, st) && Shaped(p, st') && 0 < g < p.groups && s < p.n
  {
    var x := st.now[g];
    var k := x.current.num;
    && GroupOk(p, g, x) && GroupOk(p, g, x')
    && x'.current.num == k + 1 && x.shards[s].state == Serving && x'.lastRequest == x.lastRequest
    && x'.shards[s].data == x.shards[s].data
    && x'.shards[s].state == StateAfter(Serving, g, p.Owner(k, s), p.Owner(k + 1, s))
    && st'.token[s] == (if p.Owner(k + 1, s) == g && p.Owner(k, s) in {0, g} then k + 1 else st.token[s])
    && st'.accepted[s] == st.accepted[s]
    && st'.now == st.now[g := x'] && st'.past == st.past[g := st.past[g] + {x'}] && st'.pending == st.pending
  }

  lemma ConfigShard(p: Setup, st: State, st': State, g: nat, x': Group, s: nat)
    requires p.WellFormed() && p.KeepsOwner() && Shaped(p, st) && Shaped(p, st') && 0 < g < p.groups && s < p.n && ShardOk(p, st, s)
    requires TakesConfig(p, st, st', g, x', s)
    requires AcceptedOk(p, st'.done, st'.accepted[s], s)
    ensures ShardOk(p, st', s)
  {
    hide CommandOk, AcceptedOk, Replay, Covers, PastOk, ShardOk, NowOk, HolderOk, ReachedOk, PassedOk;
    ConfigOthers(p, st, st', g, x', s);
    ConfigHolder(p, st, st', g, x', s);
    ConfigTokens(p, st, st', g, x', s);
    ConfigPassed(p, st, st', g, x', s);
    ShardMoves(p, st, st', g, x', s);
  }

  lemma ConfigOthers(p: Setup, st: State, st': State, g: nat, x': Group, s: nat)
    requires p.WellFormed() && p.KeepsOwner() && Shaped(p, st) && Shaped(p, st') && 0 < g < p.groups && s < p.n && ShardOk(p, st, s)
    requires TakesConfig(p, st, st', g, x', s)
    ensures forall h :: 0 < h < p.groups ==> NowOk(p, h, st'.now[h], s, st'.token[s])
  {
    hide CommandOk, AcceptedOk, Replay, Covers, PassedOk, PastOk, HolderOk;
    var x := st.now[g];
    var k := x.current.num;
    assert NowOk(p, g, x, s, st.token[s]) && ReachedOk(p, st.now, k + 1, s, st.token[s]);
    if p.Owner(k + 1, s) == g && p.Owner(k, s) == 0 {
      UnownedUntouched(p, st, g, s);
    }
    assert !p.PassedOn(s, st.token[s], k);
    if p.Gap(s, st.token[s], k) && p.Owner(k + 1, s) == 0 {
      assert p.Gap(s, st.token[s], k + 1);
    }
    assert NowOk(p, g, x', s, st'.token[s]);
    forall h | 0 < h < p.groups && h != g ensures NowOk(p, h, st'.now[h], s, st'.token[s]) {
      assert NowOk(p, h, st.now[h], s, st.token[s]);
      if Serves(st.now[h], h, s) {
        assert p.Owner(st.now[h].current.num, s) == h;
      }
    }
  }

  lemma ConfigHolder(p: Setup, st: State, st': State, g: nat, x': Group, s: nat)
    requires p.WellFormed() && p.KeepsOwner() && Shaped(p, st) && Shaped(p, st') && 0 < g < p.groups && s < p.n && ShardOk(p, st, s)
    requires TakesConfig(p, st, st', g, x', s)
    ensures HolderOk(p, st'.now, s, st'.token[s], st'.accepted[s])
    ensures PastOk(p, g, x', x', s, st'.token[s], st'.accepted[s])
    ensures Later(p, g, st.now[g], x', s)
    ensures Holds(p, st.now, g, s, st.token[s], st.accepted[s], st'.token[s], st'.accepted[s])
  {
    hide CommandOk, AcceptedOk, Replay, Covers, PassedOk, ReachedOk;
    var x := st.now[g];
    var k := x.current.num;
    assert NowOk(p, g, x, s, st.token[s]);
    if p.Owner(k + 1, s) == g && p.Owner(k, s) == 0 {
      UnownedUntouched(p, st, g, s);
      NoWrites(x.lastRequest);
    }
    assert !p.PassedOn(s, st.token[s], k);
    if p.Gap(s, st.token[s], k) && p.Owner(k + 1, s) == 0 {
      assert p.Gap(s, st.token[s], k + 1);
    }
  }

  lemma NoWrites(last: map<nat, nat>)
    ensures Replay([]) == map[] && Covers(last, [])
  {
  }

  lemma ConfigTokens(p: Setup, st: State, st': State, g: nat, x': Group, s: nat)
    requires p.WellFormed() && p.KeepsOwner() && Shaped(p, st) && Shaped(p, st') && 0 < g < p.groups && s < p.n && ShardOk(p, st, s)
    requires TakesConfig(p, st, st', g, x', s)
    ensures forall m: nat :: m < |p.configs| ==> ReachedOk(p, st'.now, m, s, st'.token[s])
  {
    hide CommandOk, AcceptedOk, Replay, Covers, PassedOk, PastOk;
    var k := st.now[g].current.num;
    assert NowOk(p, g, st.now[g], s, st.token[s]);
    if p.Owner(k + 1, s) == g && p.Owner(k, s) == 0 {
      UnownedUntouched(p, st, g, s);
    }
    forall m: nat | m < |p.configs| ensures ReachedOk(p, st'.now, m, s, st'.token[s]) {
      assert ReachedOk(p, st.now, m, s, st.token[s]);
    }
  }

  lemma ConfigPassed(p: Setup, st: State, st': State, g: nat, x': Group, s: nat)
    requires p.WellFormed() && p.KeepsOwner() && Shaped(p, st) && Shaped(p, st') && 0 < g < p.groups && s < p.n && ShardOk(p, st, s)
    requires TakesConfig(p, st, st', g, x', s) && st.token[s] <= st'.token[s] && Later(p, g, st.now[g], x', s)
    ensures forall m: nat :: m < |p.configs| ==> PassedOk(p, st'.now, m, s, st'.token[s])
  {
    hide CommandOk, AcceptedOk, Replay, Covers, PastOk, ReachedOk, HolderOk;
    var k := st.now[g].current.num;
    assert NowOk(p, g, st.now[g], s, st.token[s]);
    forall m: nat | m < |p.configs| ensures PassedOk(p, st'.now, m, s, st'.token[s]) {
      assert PassedOk(p, st.now, m, s, st.token[s]);
      if Moved(p, m, s) && Released(p, st.now, m, s) {
        ReleasedStays(p, st.now, g, x', m, s);
      }
    }
  }

  // ---------------------------------------------------------------- within one configuration

  // The group changes what it holds of the shard and may take the token.
  ghost predicate InPlace(p: Setup, st: State, st': State, g: nat, x': Group, s: nat)
    requires p.WellFormed() && Shaped(p, st) && Shaped(p, st') && 0 < g < p.groups && s < p.n
  {
    var x := st.now[g];
    && x'.current == x.current && x'.last == x.last && |x'.shards| == p.n
    && st'.now == st.now[g := x'] && st'.past == st.past[g := st.past[g] + {x'}] && st'.pending == st.pending
    && Later(p, g, x, x', s)
    && (st'.token[s] == st.token[s]
      || (st.token[s] + 1 == st'.token[s] == x.current.num && p.Owner(x.current.num, s) == g && Moved(p, x.current.num, s)
          && p.Owner(x.current.num - 1, s) < p.groups && st.now[p.Owner(x.current.num - 1, s)].current.num >= x.current.num))
    && (x'.shards[s].state == Serving && x.shards[s].state != Serving && p.Owner(x.current.num, s) == g ==>
        x.current.num > 0 && Released(p, st.now, x.current.num, s))
  }

  lemma InPlaceCounts(p: Setup, st: State, st': State, g: nat, x': Group, s: nat)
    requires p.WellFormed() && Shaped(p, st) && Shaped(p, st') && 0 < g < p.groups && s < p.n && ShardOk(p, st, s)
    requires InPlace(p, st, st', g, x', s)
    ensures forall m: nat :: m < |p.configs| ==> ReachedOk(p, st'.now, m, s, st'.token[s])
    ensures forall m: nat :: m < |p.configs| ==> PassedOk(p, st'.now, m, s, st'.token[s])
  {
    hide CommandOk, AcceptedOk, PastOk, HolderOk, NowOk;
    forall m: nat | m < |p.configs| ensures ReachedOk(p, st'.now, m, s, st'.token[s]) {
      assert ReachedOk(p, st.now, m, s, st.token[s]);
    }
    forall m: nat | m < |p.configs| ensures PassedOk(p, st'.now, m, s, st'.token[s]) {
      assert PassedOk(p, st.now, m, s, st.token[s]);
      if Moved(p, m, s) && Released(p, st.now, m, s) {
        ReleasedStays(p, st.now, g, x', m, s);
      }
    }
  }

  lemma InPlaceOthers(p: Setup, st: State, st': State, g: nat, x': Group, s: nat)
    requires p.WellFormed() && Shaped(p, st) && Shaped(p, st') && 0 < g < p.groups && s < p.n && ShardOk(p, st, s)
    requires InPlace(p, st, st', g, x', s) && NowOk(p, g, x', s, st'.token[s])
    ensures forall h :: 0 < h < p.groups ==> NowOk(p, h, st'.now[h], s, st'.token[s])
  {
    hide CommandOk, AcceptedOk, PastOk, HolderOk, PassedOk, ReachedOk;
    forall h | 0 < h < p.groups && h != g ensures NowOk(p, h, st'.now[h], s, st'.token[s]) {
      assert NowOk(p, h, st.now[h], s, st.token[s]);
    }
  }

  lemma InPlaceShard(p: Setup, st: State, st': State, g: nat, x': Group, s: nat)
    requires p.WellFormed() && Shaped(p, st) && Shaped(p, st') && 0 < g < p.groups && s < p.n && ShardOk(p, st, s)
    requires InPlace(p, st, st', g, x', s)
    requires Holds(p, st.now, g, s, st.token[s], st.accepted[s], st'.token[s], st'.accepted[s])
    requires NowOk(p, g, x', s, st'.token[s])
    requires PastOk(p, g, x', x', s, st'.token[s], st'.accepted[s])
    requires HolderOk(p, st'.now, s, st'.token[s], st'.accepted[s])
    requires AcceptedOk(p, st'.done, st'.accepted[s], s)
    ensures ShardOk(p, st', s)
  {
    hide CommandOk, AcceptedOk, PastOk, HolderOk, PassedOk, ReachedOk, NowOk, ShardOk, Holds, Later, Released;
    InPlaceCounts(p, st, st', g, x', s);
    InPlaceOthers(p, st, st', g, x', s);
    ShardMoves(p, st, st', g, x', s);
  }

  // The pulled data arrives.
  lemma InstallShard(p: Setup, st: State, st': State, g: nat, x': Group, s: nat, data: map<string, string>, last: map<nat, nat>)
    requires p.WellFormed() && Shaped(p, st) && Shaped(p, st') && 0 < g < p.groups && s < p.n && ShardOk(p, st, s)
    requires x'.current == st.now[g].current && x'.last == st.now[g].last && |x'.shards| == p.n
    requires st'.now == st.now[g := x'] && st'.past == st.past[g := st.past[g] + {x'}] && st'.pending == st.pending
    requires st.now[g].shards[s].state == Pulling && x'.shards[s] == Installed(st.now[g].shards[s], data)
    requires InsertOk(p, st.now, g, st.now[g].current.num, data, last, s, st.token[s], st.accepted[s])
    requires Extends(last, x'.lastRequest)
    requires st'.token[s] == st.now[g].current.num && st'.accepted[s] == st.accepted[s] && st'.done == st.done
    ensures ShardOk(p, st', s)
  {
    hide CommandOk, AcceptedOk, PassedOk, ReachedOk, Replay, Covers, Extends;
    var t, ws := st.token[s], st.accepted[s];
    assert NowOk(p, g, st.now[g], s, t);
    assert x'.shards[s].data == data;
    CoversMore(last, x'.lastRequest, ws);
    assert InPlace(p, st, st', g, x', s);
    InPlaceShard(p, st, st', g, x', s);
  }

  // The old owner deletes its copy.
  lemma DeletedShard(p: Setup, st: State, st': State, g: nat, x': Group, s: nat)
    requires p.WellFormed() && Shaped(p, st) && Shaped(p, st') && 0 < g < p.groups && s < p.n && ShardOk(p, st, s)
    requires x'.current == st.now[g].current && x'.last == st.now[g].last && |x'.shards| == p.n
    requires st'.now == st.now[g := x'] && st'.past == st.past[g := st.past[g] + {x'}] && st'.pending == st.pending
    requires st.now[g].shards[s].state == BePulling && x'.shards[s] == Shard(map[], Serving)
    requires st.token[s] >= st.now[g].current.num
    requires st'.token[s] == st.token[s] && st'.accepted[s] == st.accepted[s] && st'.done == st.done
    ensures ShardOk(p, st', s)
  {
    hide CommandOk, AcceptedOk, PassedOk, ReachedOk, Replay, Covers;
    assert NowOk(p, g, st.now[g], s, st.token[s]);
    assert InPlace(p, st, st', g, x', s);
    InPlaceShard(p, st, st', g, x', s);
  }

  // The new owner hears that the old copy is gone.
  lemma AdjustedShard(p: Setup, st: State, st': State, g: nat, x': Group, s: nat)
    requires p.WellFormed() && Shaped(p, st) && Shaped(p, st') && 0 < g < p.groups && s < p.n && ShardOk(p, st, s)
    requires x'.current == st.now[g].current && x'.last == st.now[g].last && |x'.shards| == p.n
    requires st'.now == st.now[g := x'] && st'.past == st.past[g := st.past[g] + {x'}] && st'.pending == st.pending
    requires x'.lastRequest == st.now[g].lastRequest && x'.shards[s] == st.now[g].shards[s].(state := Serving)
    requires CommandOk(p, st.now, g, AdjustShardState({s}, st.now[g].current.num), s, st.token[s], st.accepted[s])
    requires st'.token[s] == st.token[s] && st'.accepted[s] == st.accepted[s] && st'.done == st.done
    ensures st.now[g].shards[s].state in {GCing, Serving}
    ensures ShardOk(p, st', s)
  {
    hide AcceptedOk, PassedOk, ReachedOk, Replay, Covers;
    assert NowOk(p, g, st.now[g], s, st.token[s]);
    assert InPlace(p, st, st', g, x', s);
    InPlaceShard(p, st, st', g, x', s);
  }

  lemma ReplayNext(ws: seq<Request>, req: Request)
    ensures Replay(ws + [req]) == Write(Replay(ws), req)
  {
    assert (ws + [req])[..|ws|] == ws;
  }

  lemma CoversNext(last: map<nat, nat>, ws: seq<Request>, req: Request)
    requires Covers(last, ws)
    ensures Covers(UpdateLastRequest(last, req.client, req.id), ws + [req])
  {
  }

  // A client's write is accepted.
  lemma WriteShard(p: Setup, st: State, st': State, g: nat, x': Group, s: nat, req: Request)
    requires p.WellFormed() && Shaped(p, st) && Shaped(p, st') && 0 < g < p.groups && s < p.n && ShardOk(p, st, s)
    requires x'.current == st.now[g].current && x'.last == st.now[g].last && |x'.shards| == p.n
    requires st'.now == st.now[g := x'] && st'.past == st.past[g := st.past[g] + {x'}] && st'.pending == st.pending
    requires Serves(st.now[g], g, s)
    requires x'.shards[s] == st.now[g].shards[s].(data := Write(st.now[g].shards[s].data, req))
    requires x'.lastRequest == UpdateLastRequest(st.now[g].lastRequest, req.client, req.id)
    requires st'.token[s] == st.token[s] && st'.accepted[s] == st.accepted[s] + [req]
    requires AcceptedOk(p, st'.done, st'.accepted[s], s)
    ensures ShardOk(p, st', s)
  {
    hide CommandOk, AcceptedOk, PassedOk, ReachedOk, Replay, Covers;
    var x, t, ws := st.now[g], st.token[s], st.accepted[s];
    assert NowOk(p, g, x, s, t);
    assert p.Owner(x.current.num, s) == g && t > 0;
    ReplayNext(ws, req);
    CoversNext(x.lastRequest, ws, req);
    assert InPlace(p, st, st', g, x', s);
    InPlaceShard(p, st, st', g, x', s);
  }
}
