/**
 Migration from any reachable state: when all groups can still arrive in a configuration with every shard where it
 belongs, and that every operation can then be answered.
 */
module ShardArrival {
  import opened KvService
  import opened ShardService
  import opened ShardSystem
  import opened AbstractRun
  import opened ShardProgress
  import Inv = ShardInvariant
  import Rebalance

  // ----- Where everyone is -----

  /** The groups are exactly gs, each in a configuration from d to c. */
  ghost predicate Between(env: Env, w: World, gs: set<int>, d: nat, c: nat) {
    && w.groups.Keys == gs
    && forall g {:trigger w.groups[g]} :: g in gs ==>
         && w.groups[g].states != [] && Shaped(env.n, Last(w.groups[g]))
         && d <= Last(w.groups[g]).config.num <= c
  }

  /** The shard is with one of the groups in both configurations, d and the next, or in neither. */
  ghost predicate Stays(env: Env, gs: set<int>, d: nat, i: nat)
    requires EnvOk(env) && d + 1 < |env.configs| && i < env.n
  {
    Owner(env, d, i) in gs <==> Owner(env, d + 1, i) in gs
  }

  /** From configuration 1 to c no shard leaves all groups and none comes back from nowhere. */
  ghost predicate Connected(env: Env, gs: set<int>, c: nat) {
    && EnvOk(env) && c < |env.configs|
    && forall d: nat, i: nat {:trigger Stays(env, gs, d, i)} :: 1 <= d < c && i < env.n ==> Stays(env, gs, d, i)
  }

  /** A group past a configuration was ready in it. */
  lemma {:induction false} WasReady(env: Env, hist: Inv.History, g: int, group: Group, d: nat, top: nat)
    returns (k: nat)
    requires EnvOk(env) && Inv.HistoryShaped(env, hist) && Inv.GroupOk(env, hist, g, group)
    requires top < |group.states| && 1 <= d < group.states[top].config.num
    ensures k < top && group.states[k].config.num == d && Shaped(env.n, group.states[k]) && Ready(group.states[k])
  {
    assert top > 0;
    k := top - 1;
    assert Inv.EntryOk(env, hist, g, group.states[k], group.log[k], group.states[k + 1]);
    if d < group.states[k].config.num {
      k := WasReady(env, hist, g, group, d, k);
    }
  }

  /** A group that has gone on from where it gave up a shard knows that the new owner has had it. */
  lemma GoneOn(env: Env, hist: Inv.History, g: int, group: Group, d: nat, i: nat)
    requires EnvOk(env) && Inv.HistoryShaped(env, hist) && Inv.GroupOk(env, hist, g, group)
    requires 2 <= d < |env.configs| && i < env.n && Owner(env, d - 1, i) == g != Owner(env, d, i)
    requires Last(group).config.num > d
    ensures hist.token[i] >= d
  {
    var k := WasReady(env, hist, g, group, d, |group.states| - 1);
    assert Inv.StateOk(env, hist, g, group.states[k], i);
  }

  /** Where a shard was, it waits until the new owner has it. */
  lemma LeftBehind(env: Env, hist: Inv.History, g: int, group: Group, d: nat, i: nat)
    requires EnvOk(env) && Inv.HistoryShaped(env, hist) && Inv.GroupOk(env, hist, g, group)
    requires 2 <= d < |env.configs| && i < env.n && Owner(env, d - 1, i) == g != Owner(env, d, i)
    requires Last(group).config.num >= d && hist.token[i] < d
    ensures Shaped(env.n, Last(group)) && Last(group).config.num == d && Last(group).status[i] == BePulled
  {
    if Last(group).config.num > d { GoneOn(env, hist, g, group, d, i); }
    assert Inv.StateOk(env, hist, g, group.states[|group.states| - 1], i);
  }

  /** A shard to be pulled waits at its previous owner, which has not gone on. */
  lemma WaitsThere(env: Env, gs: set<int>, ws: seq<World>, acts: seq<Action>, d: nat, c: nat, g: int, i: nat)
    requires Trace(env, ws, acts) && ws != [] && Connected(env, gs, c) && Between(env, Now(ws), gs, d, c)
    requires g in gs && i < env.n && Last(Now(ws).groups[g]).config.num == d
    requires Last(Now(ws).groups[g]).status[i] == Pulling
    ensures 2 <= d && Owner(env, d, i) == g
    ensures var h := Owner(env, d - 1, i);
      h in gs && h != g && Last(Now(ws).groups[h]).config.num == d && Last(Now(ws).groups[h]).status[i] == BePulled
  {
    var hist := TraceInv(env, ws, acts);
    var group := Now(ws).groups[g];
    assert Inv.GroupOk(env, hist, g, group);
    assert Inv.StateOk(env, hist, g, group.states[|group.states| - 1], i) && Inv.LatestOk(env, hist, Last(group), i);
    assert Stays(env, gs, d - 1, i);
    var h := Owner(env, d - 1, i);
    assert Inv.GroupOk(env, hist, h, Now(ws).groups[h]);
    LeftBehind(env, hist, h, Now(ws).groups[h], d, i);
  }

  /** A shard that was pulled from here is wanted by one of the groups. */
  lemma WantedThere(env: Env, gs: set<int>, ws: seq<World>, acts: seq<Action>, d: nat, c: nat, h: int, i: nat)
    requires Trace(env, ws, acts) && ws != [] && Connected(env, gs, c) && Between(env, Now(ws), gs, d, c)
    requires h in gs && i < env.n && Last(Now(ws).groups[h]).config.num == d
    requires Last(Now(ws).groups[h]).status[i] == BePulled
    ensures var g := Owner(env, d, i);
      && g in gs && g != h
      && (Last(Now(ws).groups[g]).config.num == d ==> Last(Now(ws).groups[g]).status[i] in {Serving, Pulling})
  {
    var hist := TraceInv(env, ws, acts);
    var group := Now(ws).groups[h];
    assert Inv.GroupOk(env, hist, h, group);
    assert Inv.StateOk(env, hist, h, group.states[|group.states| - 1], i);
    assert Stays(env, gs, d - 1, i);
    var g := Owner(env, d, i);
    assert Inv.GroupOk(env, hist, g, Now(ws).groups[g]);
    assert Inv.StateOk(env, hist, g, Now(ws).groups[g].states[|Now(ws).groups[g].states| - 1], i);
  }

  // ----- Moving the shards of a group -----

  /** Group g has changed the status of shard i only. */
  ghost predicate NowHas(env: Env, w: World, w2: World, g: int, i: nat, st: Status) {
    && g in w.groups && g in w2.groups && w.groups[g].states != [] && w2.groups[g].states != []
    && Shaped(env.n, Last(w.groups[g])) && Shaped(env.n, Last(w2.groups[g])) && i < env.n
    && Last(w2.groups[g]).config == Last(w.groups[g]).config
    && Last(w2.groups[g]).status == Last(w.groups[g]).status[i := st]
  }

  lemma PullOne(env: Env, gs: set<int>, ws: seq<World>, acts: seq<Action>, d: nat, c: nat, g: int, i: nat)
    returns (ws2: seq<World>, acts2: seq<Action>)
    requires Trace(env, ws, acts) && ws != [] && Connected(env, gs, c) && Between(env, Now(ws), gs, d, c)
    requires g in gs && i < env.n && Last(Now(ws).groups[g]).config.num == d
    requires Last(Now(ws).groups[g]).status[i] == Pulling
    ensures Trace(env, ws2, acts2) && ws <= ws2 && Moved(Now(ws), Now(ws2), g)
    ensures NowHas(env, Now(ws), Now(ws2), g, i, Serving)
  {
    hide Trace, Part;
    WaitsThere(env, gs, ws, acts, d, c, g, i);
    var w, h := Now(ws), Owner(env, d - 1, i);
    var at, theirs := |w.groups[g].states| - 1, |w.groups[h].states| - 1;
    var cmd := PartOf(env, At(env, w, h, theirs), d, i);
    ws2, acts2 := Through(env, ws, acts, Pull(g, at, at, h, theirs, i), g, cmd, Last(w.groups[g]));
  }

  lemma DropOne(env: Env, gs: set<int>, ws: seq<World>, acts: seq<Action>, d: nat, c: nat, h: int, i: nat)
    returns (ws2: seq<World>, acts2: seq<Action>)
    requires Trace(env, ws, acts) && ws != [] && Connected(env, gs, c) && Between(env, Now(ws), gs, d, c)
    requires None(Now(ws), gs, d, Pulling)
    requires h in gs && i < env.n && Last(Now(ws).groups[h]).config.num == d
    requires Last(Now(ws).groups[h]).status[i] == BePulled
    ensures Trace(env, ws2, acts2) && ws <= ws2 && Moved(Now(ws), Now(ws2), h)
    ensures NowHas(env, Now(ws), Now(ws2), h, i, NoServing)
  {
    hide Trace, WithoutPart;
    WantedThere(env, gs, ws, acts, d, c, h, i);
    ConfigOf(env, ws, acts, h, d);
    var w, g := Now(ws), Owner(env, d, i);
    var at, theirs := |w.groups[h].states| - 1, |w.groups[g].states| - 1;
    ws2, acts2 := Through(env, ws, acts, Check(h, at, at, at, g, theirs, i), h, Confirm(d, i), Last(w.groups[h]));
  }

  /** No group in configuration d has a shard in that status. */
  ghost predicate None(w: World, gs: set<int>, d: nat, st: Status) {
    forall g {:trigger w.groups[g]} ::
      g in gs && g in w.groups && w.groups[g].states != [] && Last(w.groups[g]).config.num == d ==>
        st !in Last(w.groups[g]).status
  }

  lemma ConfigOf(env: Env, ws: seq<World>, acts: seq<Action>, g: int, d: nat)
    requires Trace(env, ws, acts) && ws != [] && g in Now(ws).groups && Now(ws).groups[g].states != []
    requires Last(Now(ws).groups[g]).config.num == d
    ensures d < |env.configs| && Last(Now(ws).groups[g]).config == env.configs[d]
  {
    var hist := TraceInv(env, ws, acts);
    var group := Now(ws).groups[g];
    assert Inv.GroupOk(env, hist, g, group);
    assert Inv.Base(env, hist, group.states[|group.states| - 1]);
  }

  /** Group g is in the same configuration, has no shard left in the one status, and none newly on its way. */
  ghost predicate Cleared(env: Env, w: World, w2: World, g: int, gone: Status) {
    && Moved(w, w2, g) && g in w.groups && w.groups[g].states != [] && w2.groups[g].states != []
    && Shaped(env.n, Last(w.groups[g])) && Shaped(env.n, Last(w2.groups[g]))
    && Last(w2.groups[g]).config == Last(w.groups[g]).config && gone !in Last(w2.groups[g]).status
    && forall st {:trigger st in Last(w2.groups[g]).status} :: st in Last(w2.groups[g]).status ==>
         st in Last(w.groups[g]).status || st == Serving || st == NoServing
  }

  /** One shard less, and then the rest. */
  lemma ClearsOn(env: Env, w: World, w1: World, w2: World, g: int, i: nat, st: Status, gone: Status)
    requires NowHas(env, w, w1, g, i, st) && Moved(w, w1, g) && Cleared(env, w1, w2, g, gone)
    requires st == Serving || st == NoServing
    ensures Cleared(env, w, w2, g, gone)
  {
    GrowsOn(w, w1, w2);
  }

  lemma StillBetween(env: Env, gs: set<int>, w: World, w2: World, g: int, i: nat, st: Status, d: nat, c: nat)
    requires Between(env, w, gs, d, c) && Moved(w, w2, g) && NowHas(env, w, w2, g, i, st)
    ensures Between(env, w2, gs, d, c)
    ensures None(w, gs, d, Pulling) && st != Pulling ==> None(w2, gs, d, Pulling)
  {
  }

  /** No shard of the group before j has the status. */
  ghost predicate FreeBefore(w: World, g: int, j: nat, st: Status) {
    && g in w.groups && w.groups[g].states != [] && j <= |Last(w.groups[g]).status|
    && forall i {:trigger Last(w.groups[g]).status[i]} :: 0 <= i < j ==> Last(w.groups[g]).status[i] != st
  }

  lemma AllFree(env: Env, gs: set<int>, w: World, g: int, st: Status, d: nat, c: nat)
    requires Between(env, w, gs, d, c) && g in gs && FreeBefore(w, g, env.n, st)
    ensures Cleared(env, w, w, g, st)
  {
  }

  lemma NextFree(env: Env, w: World, w2: World, g: int, j: nat, st: Status, now: Status)
    requires FreeBefore(w, g, j, st) && NowHas(env, w, w2, g, j, now) && now != st
    ensures FreeBefore(w2, g, j + 1, st)
  {
  }

  /** A group pulls all it has to, from shard j on. */
  lemma {:induction false} PullGroup(env: Env, gs: set<int>, ws: seq<World>, acts: seq<Action>, d: nat, c: nat, g: int,
                                     j: nat)
    returns (ws2: seq<World>, acts2: seq<Action>)
    requires Trace(env, ws, acts) && ws != [] && Connected(env, gs, c) && Between(env, Now(ws), gs, d, c)
    requires g in gs && j <= env.n && Last(Now(ws).groups[g]).config.num == d && FreeBefore(Now(ws), g, j, Pulling)
    ensures Trace(env, ws2, acts2) && ws <= ws2 && Cleared(env, Now(ws), Now(ws2), g, Pulling)
    decreases env.n - j
  {
    if j == env.n {
      AllFree(env, gs, Now(ws), g, Pulling, d, c);
      ws2, acts2 := ws, acts;
    } else if Last(Now(ws).groups[g]).status[j] != Pulling {
      ws2, acts2 := PullGroup(env, gs, ws, acts, d, c, g, j + 1);
    } else {
      hide Trace, Connected, Moved, Cleared, FreeBefore, None;
      var ws1, acts1 := PullOne(env, gs, ws, acts, d, c, g, j);
      StillBetween(env, gs, Now(ws), Now(ws1), g, j, Serving, d, c);
      NextFree(env, Now(ws), Now(ws1), g, j, Pulling, Serving);
      ws2, acts2 := PullGroup(env, gs, ws1, acts1, d, c, g, j + 1);
      ClearsOn(env, Now(ws), Now(ws1), Now(ws2), g, j, Serving, Pulling);
    }
  }

  /** A group drops all it was pulled from, from shard j on. */
  lemma {:induction false} DropGroup(env: Env, gs: set<int>, ws: seq<World>, acts: seq<Action>, d: nat, c: nat, g: int,
                                     j: nat)
    returns (ws2: seq<World>, acts2: seq<Action>)
    requires Trace(env, ws, acts) && ws != [] && Connected(env, gs, c) && Between(env, Now(ws), gs, d, c)
    requires None(Now(ws), gs, d, Pulling)
    requires g in gs && j <= env.n && Last(Now(ws).groups[g]).config.num == d && FreeBefore(Now(ws), g, j, BePulled)
    ensures Trace(env, ws2, acts2) && ws <= ws2 && Cleared(env, Now(ws), Now(ws2), g, BePulled)
    decreases env.n - j
  {
    if j == env.n {
      AllFree(env, gs, Now(ws), g, BePulled, d, c);
      ws2, acts2 := ws, acts;
    } else if Last(Now(ws).groups[g]).status[j] != BePulled {
      ws2, acts2 := DropGroup(env, gs, ws, acts, d, c, g, j + 1);
    } else {
      hide Trace, Connected, Moved, Cleared, FreeBefore, None;
      var ws1, acts1 := DropOne(env, gs, ws, acts, d, c, g, j);
      StillBetween(env, gs, Now(ws), Now(ws1), g, j, NoServing, d, c);
      NextFree(env, Now(ws), Now(ws1), g, j, BePulled, NoServing);
      ws2, acts2 := DropGroup(env, gs, ws1, acts1, d, c, g, j + 1);
      ClearsOn(env, Now(ws), Now(ws1), Now(ws2), g, j, NoServing, BePulled);
    }
  }

  // ----- All groups -----

  /** One more group has nothing left in the status, and no group has anything newly on its way. */
  lemma OneMoreClear(env: Env, gs: set<int>, w: World, w2: World, g: int, gone: Status, done: set<int>, d: nat, c: nat)
    requires Between(env, w, gs, d, c) && Cleared(env, w, w2, g, gone) && None(w, done, d, gone)
    ensures Between(env, w2, gs, d, c) && None(w2, done + {g}, d, gone)
    ensures None(w, gs, d, Pulling) ==> None(w2, gs, d, Pulling)
  {
  }

  lemma OtherConfig(env: Env, gs: set<int>, w: World, g: int, gone: Status, done: set<int>, d: nat, c: nat)
    requires Between(env, w, gs, d, c) && g in gs && Last(w.groups[g]).config.num != d && None(w, done, d, gone)
    ensures None(w, done + {g}, d, gone)
  {
  }

  lemma StartFree(env: Env, gs: set<int>, w: World, g: int, st: Status, d: nat, c: nat)
    requires Between(env, w, gs, d, c) && g in gs
    ensures FreeBefore(w, g, 0, st)
  {
  }

  /** Every group of `left` that is in configuration d pulls what it has to. */
  lemma {:induction false} PullGroups(env: Env, gs: set<int>, ws: seq<World>, acts: seq<Action>, d: nat, c: nat,
                                      left: set<int>)
    returns (ws2: seq<World>, acts2: seq<Action>)
    requires Trace(env, ws, acts) && ws != [] && Connected(env, gs, c) && Between(env, Now(ws), gs, d, c)
    requires left <= gs && None(Now(ws), gs - left, d, Pulling)
    ensures Trace(env, ws2, acts2) && ws <= ws2 && Now(ws2).clerks == Now(ws).clerks
    ensures Between(env, Now(ws2), gs, d, c) && None(Now(ws2), gs, d, Pulling)
    decreases left
  {
    ws2, acts2 := ws, acts;
    if left == {} {
      assert gs - left == gs;
    } else {
      var g := Rebalance.Member(left);
      assert gs - (left - {g}) == gs - left + {g};
      if Last(Now(ws).groups[g]).config.num == d {
        hide Trace, Connected, None, FreeBefore, Grows;
        StartFree(env, gs, Now(ws), g, Pulling, d, c);
        ws2, acts2 := PullGroup(env, gs, ws, acts, d, c, g, 0);
        OneMoreClear(env, gs, Now(ws), Now(ws2), g, Pulling, gs - left, d, c);
      } else {
        OtherConfig(env, gs, Now(ws), g, Pulling, gs - left, d, c);
      }
      hide Trace, Connected, None, Between, Cleared;
      ws2, acts2 := PullGroups(env, gs, ws2, acts2, d, c, left - {g});
    }
  }

  /** Then they drop what they were pulled from. */
  lemma {:induction false} DropGroups(env: Env, gs: set<int>, ws: seq<World>, acts: seq<Action>, d: nat, c: nat,
                                      left: set<int>)
    returns (ws2: seq<World>, acts2: seq<Action>)
    requires Trace(env, ws, acts) && ws != [] && Connected(env, gs, c) && Between(env, Now(ws), gs, d, c)
    requires left <= gs && None(Now(ws), gs, d, Pulling) && None(Now(ws), gs - left, d, BePulled)
    ensures Trace(env, ws2, acts2) && ws <= ws2 && Now(ws2).clerks == Now(ws).clerks && Between(env, Now(ws2), gs, d, c)
    ensures None(Now(ws2), gs, d, Pulling) && None(Now(ws2), gs, d, BePulled)
    decreases left
  {
    ws2, acts2 := ws, acts;
    if left == {} {
      assert gs - left == gs;
    } else {
      var g := Rebalance.Member(left);
      assert gs - (left - {g}) == gs - left + {g};
      if Last(Now(ws).groups[g]).config.num == d {
        hide Trace, Connected, None, FreeBefore, Grows;
        StartFree(env, gs, Now(ws), g, BePulled, d, c);
        ws2, acts2 := DropGroup(env, gs, ws, acts, d, c, g, 0);
        OneMoreClear(env, gs, Now(ws), Now(ws2), g, BePulled, gs - left, d, c);
      } else {
        OtherConfig(env, gs, Now(ws), g, BePulled, gs - left, d, c);
      }
      hide Trace, Connected, None, Between, Cleared;
      ws2, acts2 := DropGroups(env, gs, ws2, acts2, d, c, left - {g});
    }
  }

  /** A group that is ready takes the next configuration. */
  lemma GoToNext(env: Env, ws: seq<World>, acts: seq<Action>, d: nat, g: int)
    returns (ws2: seq<World>, acts2: seq<Action>)
    requires Trace(env, ws, acts) && EnvOk(env) && ws != [] && g in Now(ws).groups && Now(ws).groups[g].states != []
    requires d + 1 < |env.configs| && Shaped(env.n, Last(Now(ws).groups[g])) && Ready(Last(Now(ws).groups[g]))
    requires Last(Now(ws).groups[g]).config.num == d
    ensures Trace(env, ws2, acts2) && ws <= ws2 && Moved(Now(ws), Now(ws2), g) && Now(ws2).groups[g].states != []
    ensures Shaped(env.n, Last(Now(ws2).groups[g])) && Last(Now(ws2).groups[g]).config.num == d + 1
  {
    hide Trace;
    var s, at := Last(Now(ws).groups[g]), |Now(ws).groups[g].states| - 1;
    assert env.configs[d + 1].num == d + 1;
    ws2, acts2 := Through(env, ws, acts, Fetch(g, at), g, Configure(env.configs[d + 1]), s);
  }

  /** The groups outside `left` are past configuration d, where nothing is on its way. */
  ghost predicate Past(env: Env, w: World, gs: set<int>, d: nat, c: nat, left: set<int>) {
    && Between(env, w, gs, d, c) && None(w, gs, d, Pulling) && None(w, gs, d, BePulled)
    && forall g {:trigger w.groups[g]} :: g in gs && g !in left ==> Last(w.groups[g]).config.num > d
  }

  lemma ReadyThere(env: Env, w: World, gs: set<int>, d: nat, c: nat, left: set<int>, g: int)
    requires Past(env, w, gs, d, c, left) && g in gs && Last(w.groups[g]).config.num == d
    ensures Ready(Last(w.groups[g]))
  {
    var s := Last(w.groups[g]);
    assert forall i {:trigger s.status[i]} :: 0 <= i < |s.status| ==> s.status[i] in s.status;
  }

  lemma OneMorePast(env: Env, w: World, w2: World, gs: set<int>, d: nat, c: nat, left: set<int>, g: int)
    requires Past(env, w, gs, d, c, left) && g in gs && Moved(w, w2, g) && w2.groups[g].states != [] && d < c
    requires Shaped(env.n, Last(w2.groups[g])) && Last(w2.groups[g]).config.num == d + 1
    ensures Past(env, w2, gs, d, c, left - {g})
  {
  }

  /** With nothing on its way in configuration d, the groups of `left` go to the next. */
  lemma {:induction false} RaiseGroups(env: Env, gs: set<int>, ws: seq<World>, acts: seq<Action>, d: nat, c: nat,
                                       left: set<int>)
    returns (ws2: seq<World>, acts2: seq<Action>)
    requires Trace(env, ws, acts) && EnvOk(env) && ws != [] && d < c < |env.configs| && left <= gs
    requires Past(env, Now(ws), gs, d, c, left)
    ensures Trace(env, ws2, acts2) && ws <= ws2 && Now(ws2).clerks == Now(ws).clerks
    ensures Between(env, Now(ws2), gs, d + 1, c)
    decreases left
  {
    ws2, acts2 := ws, acts;
    if left != {} {
      hide Trace, None, Grows;
      var g := Rebalance.Member(left);
      if Last(Now(ws).groups[g]).config.num == d {
        ReadyThere(env, Now(ws), gs, d, c, left, g);
        ws2, acts2 := GoToNext(env, ws, acts, d, g);
        OneMorePast(env, Now(ws), Now(ws2), gs, d, c, left, g);
      }
      hide Moved;
      assert Past(env, Now(ws2), gs, d, c, left - {g});
      hide Past, Between;
      ws2, acts2 := RaiseGroups(env, gs, ws2, acts2, d, c, left - {g});
    }
  }

  /** In their configuration all groups pull and drop what they have to. */
  lemma SettleGroups(env: Env, gs: set<int>, ws: seq<World>, acts: seq<Action>, d: nat, c: nat)
    returns (ws2: seq<World>, acts2: seq<Action>)
    requires Trace(env, ws, acts) && ws != [] && Connected(env, gs, c) && Between(env, Now(ws), gs, d, c)
    ensures Trace(env, ws2, acts2) && ws <= ws2 && Now(ws2).clerks == Now(ws).clerks && Between(env, Now(ws2), gs, d, c)
    ensures None(Now(ws2), gs, d, Pulling) && None(Now(ws2), gs, d, BePulled)
  {
    hide Trace, Connected, Between;
    assert gs - gs == {};
    ws2, acts2 := PullGroups(env, gs, ws, acts, d, c, gs);
    ws2, acts2 := DropGroups(env, gs, ws2, acts2, d, c, gs);
  }

  /** From any reachable state all groups can arrive, if no shard is ever without a group. */
  lemma {:induction false} Arrive(env: Env, gs: set<int>, ws: seq<World>, acts: seq<Action>, d: nat, c: nat)
    returns (ws2: seq<World>, acts2: seq<Action>)
    requires Trace(env, ws, acts) && ws != [] && Connected(env, gs, c) && Between(env, Now(ws), gs, d, c) && d <= c
    ensures Trace(env, ws2, acts2) && ws <= ws2 && Now(ws2).clerks == Now(ws).clerks
    ensures All(env, Now(ws2), gs, c, Shards(env.n))
    decreases c - d
  {
    hide Trace, None, All;
    ws2, acts2 := SettleGroups(env, gs, ws, acts, d, c);
    if d < c {
      ws2, acts2 := RaiseGroups(env, gs, ws2, acts2, d, c, gs);
      ws2, acts2 := Arrive(env, gs, ws2, acts2, d + 1, c);
    } else {
      AllThere(env, gs, ws2, acts2, c);
    }
  }

  lemma AllThere(env: Env, gs: set<int>, ws: seq<World>, acts: seq<Action>, c: nat)
    requires Trace(env, ws, acts) && ws != [] && EnvOk(env) && Between(env, Now(ws), gs, c, c)
    requires None(Now(ws), gs, c, Pulling) && None(Now(ws), gs, c, BePulled)
    ensures All(env, Now(ws), gs, c, Shards(env.n))
  {
    forall g | g in gs
      ensures GroupAt(env, Now(ws), g, c, Shards(env.n))
    {
      ThereIs(env, ws, acts, g, c);
    }
  }

  lemma ThereIs(env: Env, ws: seq<World>, acts: seq<Action>, g: int, c: nat)
    requires Trace(env, ws, acts) && ws != [] && EnvOk(env) && g in Now(ws).groups && Now(ws).groups[g].states != []
    requires Shaped(env.n, Last(Now(ws).groups[g])) && Last(Now(ws).groups[g]).config.num == c
    requires Pulling !in Last(Now(ws).groups[g]).status && BePulled !in Last(Now(ws).groups[g]).status
    ensures GroupAt(env, Now(ws), g, c, Shards(env.n))
  {
    ConfigOf(env, ws, acts, g, c);
    var hist := TraceInv(env, ws, acts);
    var group := Now(ws).groups[g];
    assert Inv.GroupOk(env, hist, g, group);
    hide Trace;
    forall i: nat | i < env.n
      ensures Last(group).status[i] == Standing(env, g, c, i, true)
    {
      assert Inv.StateOk(env, hist, g, group.states[|group.states| - 1], i);
      assert Last(group).status[i] in Last(group).status;
    }
  }

  // ----- Exactly when -----

  /** A group that has arrived was ready in every configuration before. */
  lemma ReadyIn(env: Env, ws: seq<World>, acts: seq<Action>, hist: Inv.History, gs: set<int>, g: int, d: nat, c: nat)
    returns (k: nat)
    requires EnvOk(env) && ws != [] && Inv.Inv(env, Now(ws), hist) && All(env, Now(ws), gs, c, Shards(env.n))
    requires g in gs && 1 <= d <= c < |env.configs|
    ensures Inv.GroupOk(env, hist, g, Now(ws).groups[g]) && k < |Now(ws).groups[g].states|
    ensures var s := Now(ws).groups[g].states[k]; s.config.num == d && Shaped(env.n, s) && Ready(s)
  {
    var group := Now(ws).groups[g];
    assert GroupAt(env, Now(ws), g, c, Shards(env.n)) && env.configs[c].num == c;
    k := |group.states| - 1;
    if d < c {
      k := WasReady(env, hist, g, group, d, k);
    } else {
      AllMoved(env, Now(ws), g, c);
    }
  }

  /** Once arrived, every owner in a configuration before has had its shards. */
  lemma OwnersWereThere(env: Env, gs: set<int>, ws: seq<World>, acts: seq<Action>, d: nat, c: nat, i: nat)
    requires Trace(env, ws, acts) && ws != [] && EnvOk(env) && All(env, Now(ws), gs, c, Shards(env.n))
    requires 1 <= d < c < |env.configs| && i < env.n
    ensures Stays(env, gs, d, i)
  {
    hide All;
    var hist := TraceInv(env, ws, acts);
    var g, h := Owner(env, d + 1, i), Owner(env, d, i);
    assert Inv.TokenOk(env, Now(ws), hist, i);
    assert Now(ws).groups.Keys == gs by { Gs(env, Now(ws), gs, c); }
    if g in gs {
      var k := ReadyIn(env, ws, acts, hist, gs, g, d + 1, c);
      assert Inv.StateOk(env, hist, g, Now(ws).groups[g].states[k], i);
      assert Inv.Held(env, Now(ws), d, i);
    }
    if h in gs && g != h {
      var k := ReadyIn(env, ws, acts, hist, gs, h, d + 1, c);
      assert Inv.StateOk(env, hist, h, Now(ws).groups[h].states[k], i);
      assert Inv.Held(env, Now(ws), d + 1, i);
    }
  }

  lemma Gs(env: Env, w: World, gs: set<int>, c: nat)
    requires EnvOk(env) && All(env, w, gs, c, Shards(env.n))
    ensures w.groups.Keys == gs
  {
  }

  /**
   From any reachable state, all groups can still arrive in configuration c with every shard where it belongs,
   exactly when from configuration 1 to c no shard leaves all groups and none comes back from nowhere.
   */
  lemma ArriveExactlyWhenConnected(env: Env, gs: set<int>, ws: seq<World>, acts: seq<Action>, c: nat)
    requires Trace(env, ws, acts) && ws != [] && c < |env.configs| && Between(env, Now(ws), gs, 0, c)
    ensures EnvOk(env)
    ensures (exists ws2, acts2 {:trigger Trace(env, ws2, acts2)} ::
        Trace(env, ws2, acts2) && ws <= ws2 && All(env, Now(ws2), gs, c, Shards(env.n)))
      <==> Connected(env, gs, c)
  {
    TraceLong(env, ws, acts);
    hide Trace, All, Between;
    if Connected(env, gs, c) {
      var ws2, acts2 := Arrive(env, gs, ws, acts, 0, c);
    } else {
      forall ws2: seq<World>, acts2 | Trace(env, ws2, acts2) && ws <= ws2
        ensures !All(env, Now(ws2), gs, c, Shards(env.n))
      {
        if All(env, Now(ws2), gs, c, Shards(env.n)) {
          forall d: nat, i: nat | 1 <= d < c && i < env.n
            ensures Stays(env, gs, d, i)
          {
            OwnersWereThere(env, gs, ws2, acts2, d, c, i);
          }
        }
      }
    }
  }

  /** The group that owns the shard of an issued operation applies it, and the clerk gets the answer. */
  lemma AnswerThere(env: Env, gs: set<int>, ws: seq<World>, acts: seq<Action>, c: nat, client: int, op: Op, g: int)
    returns (ws2: seq<World>, acts2: seq<Action>)
    requires Trace(env, ws, acts) && ws != [] && EnvOk(env) && c < |env.configs|
    requires client in Now(ws).clerks && Now(ws).clerks[client].answered < |Now(ws).clerks[client].ops|
    requires op == Now(ws).clerks[client].ops[Now(ws).clerks[client].answered] && Issued(Now(ws), op)
    requires g in Now(ws).groups && |Now(ws).groups[g].states| == |Now(ws).groups[g].log| + 1
    requires var s := Last(Now(ws).groups[g]);
      Shaped(env.n, s) && s.config.shards[KeyShard(env.n, op.key)] == g && Serves(env.n, s, op)
    ensures Trace(env, ws2, acts2) && ws <= ws2 && client in Now(ws2).clerks
    ensures Now(ws2).clerks[client] == Now(ws).clerks[client].(answered := Now(ws).clerks[client].answered + 1)
  {
    hide Trace, ApplyCommand;
    var k, s := |Now(ws).groups[g].log|, Last(Now(ws).groups[g]);
    ws2, acts2 := Through(env, ws, acts, Request(g, k, op), g, Operation(op), s);
    assert Now(ws2).groups[g].states[k] == s;
    ws2, acts2 := Extend(env, ws2, acts2, Answer(client, g, k));
  }

  /** And then whatever operation a clerk is waiting for can be answered. */
  lemma CanBeAnswered(env: Env, gs: set<int>, ws: seq<World>, acts: seq<Action>, c: nat, client: int)
    returns (ws2: seq<World>, acts2: seq<Action>)
    requires Trace(env, ws, acts) && ws != [] && Connected(env, gs, c) && Between(env, Now(ws), gs, 0, c)
    requires client in Now(ws).clerks && Now(ws).clerks[client].answered < |Now(ws).clerks[client].ops|
    requires Owner(env, c, KeyShard(env.n, Now(ws).clerks[client].ops[Now(ws).clerks[client].answered].key)) in gs
    ensures Trace(env, ws2, acts2) && ws <= ws2 && client in Now(ws2).clerks
    ensures Now(ws2).clerks[client] == Now(ws).clerks[client].(answered := Now(ws).clerks[client].answered + 1)
  {
    hide Trace, Between;
    ws2, acts2 := Arrive(env, gs, ws, acts, 0, c);
    var op := Now(ws).clerks[client].ops[Now(ws).clerks[client].answered];
    var g := Owner(env, c, KeyShard(env.n, op.key));
    OwnerServes(env, gs, ws2, acts2, c, client, op, g);
    hide All;
    ws2, acts2 := AnswerThere(env, gs, ws2, acts2, c, client, op, g);
  }

  lemma OwnerServes(env: Env, gs: set<int>, ws: seq<World>, acts: seq<Action>, c: nat, client: int, op: Op, g: int)
    requires Trace(env, ws, acts) && ws != [] && EnvOk(env) && All(env, Now(ws), gs, c, Shards(env.n)) && g in gs
    requires client in Now(ws).clerks && Now(ws).clerks[client].answered < |Now(ws).clerks[client].ops|
    requires op == Now(ws).clerks[client].ops[Now(ws).clerks[client].answered]
    requires c < |env.configs| && Owner(env, c, KeyShard(env.n, op.key)) == g
    ensures Issued(Now(ws), op) && g in Now(ws).groups
    ensures |Now(ws).groups[g].states| == |Now(ws).groups[g].log| + 1
    ensures var s := Last(Now(ws).groups[g]);
      Shaped(env.n, s) && s.config.shards[KeyShard(env.n, op.key)] == g && Serves(env.n, s, op)
  {
    var hist := TraceInv(env, ws, acts);
    assert GroupAt(env, Now(ws), g, c, Shards(env.n));
    assert Inv.ClerkOk(hist, client, Now(ws).clerks[client]) && Inv.GroupOk(env, hist, g, Now(ws).groups[g]);
    assert g != 0 && env.configs[0] == NoConfig(env.n);
    assert Last(Now(ws).groups[g]).status[KeyShard(env.n, op.key)] == Serving;
  }
}
