/**
 What the groups can always do: go through the configurations one after the other, every shard arriving. It
 shows that the number of a confirmation cannot be read after the list of shards.
 */
module ShardProgress {
  import opened ShardService
  import opened ShardSystem
  import opened AbstractRun
  import Inv = ShardInvariant
  import Promises = ShardTheorems
  import Rebalance

  // ----- One command of one group -----

  /** Only group g has moved. */
  ghost predicate Moved(w: World, w2: World, g: int) {
    && Grows(w, w2) && w2.clerks == w.clerks
    && forall h {:trigger w2.groups[h]} :: h in w.groups && h != g ==> w2.groups[h] == w.groups[h]
  }

  /** The latest state of a group. */
  ghost predicate IsAt(env: Env, w: World, g: int, s: GroupState) {
    g in w.groups && w.groups[g].states != [] && Shaped(env.n, s) && Last(w.groups[g]) == s
  }

  /** A command is handed to a group, and committed. */
  lemma Through(env: Env, ws: seq<World>, acts: seq<Action>, a: Action, g: int, cmd: Command, s: GroupState)
    returns (ws2: seq<World>, acts2: seq<Action>)
    requires Trace(env, ws, acts) && EnvOk(env) && IsAt(env, Now(ws), g, s) && InShape(env.n, cmd)
    requires Enabled(env, Now(ws), a) && !a.Commit? && Step(env, Now(ws), a) == Propose(Now(ws), g, cmd)
    ensures Trace(env, ws2, acts2) && ws2 != [] && ws <= ws2 && Moved(Now(ws), Now(ws2), g)
    ensures IsAt(env, Now(ws2), g, ApplyCommand(env.n, g, s, cmd))
    ensures Now(ws2).groups[g].log == Now(ws).groups[g].log + [cmd]
  {
    hide Trace, Enabled, ApplyCommand;
    TraceLong(env, ws, acts);
    var ws1, acts1 := Extend(env, ws, acts, a);
    hide Step;
    TraceLong(env, ws1, acts1);
    CommitReady(env, Now(ws1), g, cmd);
    ws2, acts2 := Extend(env, ws1, acts1, Commit(g, cmd));
    CommitDoes(env, Now(ws1), g, cmd);
  }

  lemma CommitReady(env: Env, w: World, g: int, cmd: Command)
    requires EnvOk(env) && g in w.groups && w.groups[g].states != [] && cmd in w.groups[g].pending
    ensures Enabled(env, w, Commit(g, cmd))
  {
  }

  lemma CommitDoes(env: Env, w: World, g: int, cmd: Command)
    requires EnvOk(env) && Enabled(env, w, Commit(g, cmd)) && CanApply(env, w, Commit(g, cmd))
    ensures Moved(w, Step(env, w, Commit(g, cmd)), g)
    ensures var w2 := Step(env, w, Commit(g, cmd));
      && g in w2.groups && w2.groups[g].log == w.groups[g].log + [cmd]
      && w2.groups[g].states == w.groups[g].states + [ApplyCommand(env.n, g, Last(w.groups[g]), cmd)]
  {
  }

  // ----- All groups in one configuration -----

  /** Every shard has a group of the system in configurations 1 to c. */
  ghost predicate Owned(env: Env, gs: set<int>, c: nat) {
    && EnvOk(env) && 0 !in gs && c < |env.configs|
    && forall d: nat, i: nat {:trigger Owner(env, d, i)} :: 1 <= d <= c && i < env.n ==> Owner(env, d, i) in gs
  }

  /** How a shard stands at a group in configuration c, before and after it has moved. */
  ghost function Standing(env: Env, g: int, c: nat, i: nat, done: bool): Status
    requires EnvOk(env) && c < |env.configs| && i < env.n
  {
    if c == 0 then NoServing
    else if Owner(env, c, i) == g then (if done || c == 1 || Owner(env, c - 1, i) == g then Serving else Pulling)
    else if !done && c >= 2 && Owner(env, c - 1, i) == g then BePulled
    else NoServing
  }

  /** The group is in configuration c, the shards of `done` have moved and the others have not. */
  ghost predicate GroupAt(env: Env, w: World, g: int, c: nat, done: set<nat>)
    requires EnvOk(env)
  {
    && g in w.groups && w.groups[g].states != [] && c < |env.configs|
    && Shaped(env.n, Last(w.groups[g])) && Last(w.groups[g]).config == env.configs[c]
    && forall i: nat {:trigger Last(w.groups[g]).status[i]} :: i < env.n ==>
         Last(w.groups[g]).status[i] == Standing(env, g, c, i, i in done)
  }

  ghost predicate All(env: Env, w: World, gs: set<int>, c: nat, done: set<nat>)
    requires EnvOk(env)
  {
    w.groups.Keys == gs && forall g {:trigger GroupAt(env, w, g, c, done)} :: g in gs ==> GroupAt(env, w, g, c, done)
  }

  ghost function Shards(n: nat): (r: set<nat>)
    ensures forall i: nat {:trigger i in r} :: i in r <==> i < n
  {
    if n == 0 then {} else Shards(n - 1) + {n - 1}
  }

  /** A group none of whose shards is on its way takes its next configuration. */
  lemma Configured(env: Env, ws: seq<World>, acts: seq<Action>, g: int, c: nat, done: set<nat>)
    returns (ws2: seq<World>, acts2: seq<Action>)
    requires Trace(env, ws, acts) && EnvOk(env) && GroupAt(env, Now(ws), g, c, done) && c + 1 < |env.configs|
    requires Ready(Last(Now(ws).groups[g]))
    ensures Trace(env, ws2, acts2) && ws2 != [] && Moved(Now(ws), Now(ws2), g)
    ensures GroupAt(env, Now(ws2), g, c + 1, {})
  {
    hide Trace;
    TraceLong(env, ws, acts);
    var s, at := Last(Now(ws).groups[g]), |Now(ws).groups[g].states| - 1;
    assert env.configs[c].num == c && env.configs[c + 1].num == c + 1;
    ws2, acts2 := Through(env, ws, acts, Fetch(g, at), g, Configure(env.configs[c + 1]), s);
  }

  /** The shard is pulled from its previous owner. */
  lemma Pulled(env: Env, ws: seq<World>, acts: seq<Action>, g: int, h: int, c: nat, done: set<nat>, i: nat)
    returns (ws2: seq<World>, acts2: seq<Action>)
    requires Trace(env, ws, acts) && EnvOk(env) && g != h && i < env.n && i !in done
    requires GroupAt(env, Now(ws), g, c, done) && GroupAt(env, Now(ws), h, c, done)
    requires c >= 2 && Owner(env, c, i) == g && Owner(env, c - 1, i) == h
    ensures Trace(env, ws2, acts2) && ws2 != [] && Moved(Now(ws), Now(ws2), g)
    ensures GroupAt(env, Now(ws2), g, c, done + {i}) && Last(Now(ws2).groups[g]).status[i] == Serving
  {
    hide Trace, Part;
    TraceLong(env, ws, acts);
    var w := Now(ws);
    var at, theirs := |w.groups[g].states| - 1, |w.groups[h].states| - 1;
    assert env.configs[c].num == c;
    assert w.groups[g].states[at].status[i] == Pulling && w.groups[h].states[theirs].status[i] == BePulled;
    var cmd := PartOf(env, At(env, w, h, theirs), c, i);
    ws2, acts2 := Through(env, ws, acts, Pull(g, at, at, h, theirs, i), g, cmd, Last(w.groups[g]));
  }

  /** The new owner confirms, and the old one drops its copy. */
  lemma Dropped(env: Env, ws: seq<World>, acts: seq<Action>, h: int, g: int, c: nat, done: set<nat>, i: nat)
    returns (ws2: seq<World>, acts2: seq<Action>)
    requires Trace(env, ws, acts) && EnvOk(env) && g != h && i < env.n && i !in done
    requires GroupAt(env, Now(ws), h, c, done) && GroupAt(env, Now(ws), g, c, done + {i})
    requires c >= 2 && Owner(env, c, i) == g && Owner(env, c - 1, i) == h
    ensures Trace(env, ws2, acts2) && ws2 != [] && Moved(Now(ws), Now(ws2), h)
    ensures GroupAt(env, Now(ws2), h, c, done + {i})
  {
    hide Trace, WithoutPart;
    TraceLong(env, ws, acts);
    var w := Now(ws);
    var at, theirs := |w.groups[h].states| - 1, |w.groups[g].states| - 1;
    assert env.configs[c].num == c;
    assert w.groups[g].states[theirs].status[i] == Serving && w.groups[h].states[at].status[i] == BePulled;
    ws2, acts2 := Through(env, ws, acts, Check(h, at, at, at, g, theirs, i), h, Confirm(c, i), Last(w.groups[h]));
  }

  lemma GroupStill(env: Env, w: World, w2: World, g: int, g2: int, c: nat, done: set<nat>)
    requires EnvOk(env) && Moved(w, w2, g) && g2 != g && GroupAt(env, w, g2, c, done)
    ensures GroupAt(env, w2, g2, c, done)
  {
    hide Standing;
  }

  /** A group the shard neither leaves nor enters sees no difference. */
  lemma SameEither(env: Env, w: World, g: int, c: nat, done: set<nat>, i: nat)
    requires EnvOk(env) && GroupAt(env, w, g, c, done) && i < env.n
    requires c < 2 || Owner(env, c, i) == Owner(env, c - 1, i) || (g != Owner(env, c, i) && g != Owner(env, c - 1, i))
    ensures GroupAt(env, w, g, c, done + {i})
  {
  }

  /** One shard moves, if it has to. */
  lemma MoveOne(env: Env, gs: set<int>, ws: seq<World>, acts: seq<Action>, c: nat, done: set<nat>, i: nat)
    returns (ws2: seq<World>, acts2: seq<Action>)
    requires Trace(env, ws, acts) && Owned(env, gs, c) && All(env, Now(ws), gs, c, done) && i < env.n && i !in done
    ensures Trace(env, ws2, acts2) && ws2 != [] && Grows(Now(ws), Now(ws2)) && All(env, Now(ws2), gs, c, done + {i})
  {
    hide Trace, GroupAt;
    TraceLong(env, ws, acts);
    ws2, acts2 := ws, acts;
    if c >= 2 && Owner(env, c, i) != Owner(env, c - 1, i) {
      var g, h := Owner(env, c, i), Owner(env, c - 1, i);
      assert GroupAt(env, Now(ws), g, c, done) && GroupAt(env, Now(ws), h, c, done);
      var ws1, acts1 := Pulled(env, ws, acts, g, h, c, done, i);
      GroupStill(env, Now(ws), Now(ws1), g, h, c, done);
      ws2, acts2 := Dropped(env, ws1, acts1, h, g, c, done, i);
      forall k | k in gs
        ensures GroupAt(env, Now(ws2), k, c, done + {i})
      {
        if k == g {
          GroupStill(env, Now(ws1), Now(ws2), h, g, c, done + {i});
        } else if k != h {
          assert GroupAt(env, Now(ws), k, c, done);
          GroupStill(env, Now(ws), Now(ws1), g, k, c, done);
          GroupStill(env, Now(ws1), Now(ws2), h, k, c, done);
          SameEither(env, Now(ws2), k, c, done, i);
        }
      }
    } else {
      forall k | k in gs
        ensures GroupAt(env, Now(ws), k, c, done + {i})
      {
        assert GroupAt(env, Now(ws), k, c, done);
        SameEither(env, Now(ws), k, c, done, i);
      }
    }
  }

  /** Every shard of a set moves. */
  lemma {:induction false} MoveAll(env: Env, gs: set<int>, ws: seq<World>, acts: seq<Action>, c: nat, done: set<nat>,
                                   goal: set<nat>)
    returns (ws2: seq<World>, acts2: seq<Action>)
    requires Trace(env, ws, acts) && Owned(env, gs, c) && All(env, Now(ws), gs, c, done)
    requires done <= goal <= Shards(env.n)
    ensures Trace(env, ws2, acts2) && ws2 != [] && Grows(Now(ws), Now(ws2)) && All(env, Now(ws2), gs, c, goal)
    decreases goal - done
  {
    hide Trace, All, Owned;
    TraceLong(env, ws, acts);
    ws2, acts2 := ws, acts;
    if done != goal {
      var i := Missing(done, goal);
      ws2, acts2 := MoveOne(env, gs, ws, acts, c, done, i);
      ghost var w1 := Now(ws2);
      ws2, acts2 := MoveAll(env, gs, ws2, acts2, c, done + {i}, goal);
      GrowsOn(Now(ws), w1, Now(ws2));
    }
  }

  lemma Missing(done: set<nat>, goal: set<nat>) returns (i: nat)
    requires done <= goal && done != goal
    ensures i in goal && i !in done
  {
    i :| i in goal && i !in done;
  }

  lemma GrowsOn(w: World, w1: World, w2: World)
    requires Grows(w, w1) && Grows(w1, w2)
    ensures Grows(w, w2)
  {
    forall g | g in w.groups
      ensures w.groups[g].log <= w2.groups[g].log && w.groups[g].states <= w2.groups[g].states
      ensures w.groups[g].pending <= w2.groups[g].pending
    {
      assert w.groups[g].log <= w1.groups[g].log && w1.groups[g].log <= w2.groups[g].log;
    }
  }

  /** With every shard moved, groups take the next configuration one after the other. */
  lemma {:induction false} ConfigureAll(env: Env, gs: set<int>, ws: seq<World>, acts: seq<Action>, c: nat,
                                        left: set<int>)
    returns (ws2: seq<World>, acts2: seq<Action>)
    requires Trace(env, ws, acts) && EnvOk(env) && c + 1 < |env.configs| && Now(ws).groups.Keys == gs && left <= gs
    requires forall g {:trigger g in left} :: g in left ==> GroupAt(env, Now(ws), g, c, Shards(env.n))
    requires forall g {:trigger g in gs} :: g in gs && g !in left ==> GroupAt(env, Now(ws), g, c + 1, {})
    ensures Trace(env, ws2, acts2) && ws2 != [] && Grows(Now(ws), Now(ws2)) && All(env, Now(ws2), gs, c + 1, {})
    decreases left
  {
    hide Trace, GroupAt;
    TraceLong(env, ws, acts);
    ws2, acts2 := ws, acts;
    if left != {} {
      var g := Rebalance.Member(left);
      AllMoved(env, Now(ws), g, c);
      var ws1, acts1 := Configured(env, ws, acts, g, c, Shards(env.n));
      forall k | k in gs && k != g
        ensures k in left ==> GroupAt(env, Now(ws1), k, c, Shards(env.n))
        ensures k !in left ==> GroupAt(env, Now(ws1), k, c + 1, {})
      {
        if k in left {
          GroupStill(env, Now(ws), Now(ws1), g, k, c, Shards(env.n));
        } else {
          GroupStill(env, Now(ws), Now(ws1), g, k, c + 1, {});
        }
      }
      ws2, acts2 := ConfigureAll(env, gs, ws1, acts1, c, left - {g});
      GrowsOn(Now(ws), Now(ws1), Now(ws2));
    }
  }

  lemma AllMoved(env: Env, w: World, g: int, c: nat)
    requires EnvOk(env) && GroupAt(env, w, g, c, Shards(env.n))
    ensures Ready(Last(w.groups[g]))
  {
  }

  /** From one configuration all groups go to any later one, and are about to move its shards. */
  lemma {:induction false} GoOn(env: Env, gs: set<int>, ws: seq<World>, acts: seq<Action>, c: nat, d: nat)
    returns (ws2: seq<World>, acts2: seq<Action>)
    requires Trace(env, ws, acts) && Owned(env, gs, d) && c < d && All(env, Now(ws), gs, c, Shards(env.n))
    ensures Trace(env, ws2, acts2) && ws2 != [] && Grows(Now(ws), Now(ws2)) && All(env, Now(ws2), gs, d, {})
    decreases d - c
  {
    hide Trace, GroupAt;
    TraceLong(env, ws, acts);
    assert forall g {:trigger g in gs} :: g in gs ==> GroupAt(env, Now(ws), g, c, Shards(env.n));
    ws2, acts2 := ConfigureAll(env, gs, ws, acts, c, gs);
    if c + 1 < d {
      ghost var w1 := Now(ws2);
      ws2, acts2 := MoveAll(env, gs, ws2, acts2, c + 1, {}, Shards(env.n));
      GrowsOn(Now(ws), w1, Now(ws2));
      ghost var w2 := Now(ws2);
      ws2, acts2 := GoOn(env, gs, ws2, acts2, c + 1, d);
      GrowsOn(Now(ws), w2, Now(ws2));
    }
  }

  lemma Begin(env: Env, gs: set<int>) returns (ws: seq<World>, acts: seq<Action>)
    requires EnvOk(env) && 0 !in gs
    ensures Trace(env, ws, acts) && ws != [] && All(env, Now(ws), gs, 0, Shards(env.n))
  {
    var w := World(map g | g in gs :: Group([], [Start(env.n)], {}), map[]);
    ws, acts := [w], [];
    forall g | g in gs
      ensures GroupAt(env, w, g, 0, Shards(env.n))
    {
      assert w.groups[g] == Group([], [Start(env.n)], {});
    }
  }

  /** Migration can always be completed: some run brings all groups to the configuration, every shard arrived. */
  lemma CanArrive(env: Env, gs: set<int>, c: nat) returns (ws: seq<World>, acts: seq<Action>)
    requires Owned(env, gs, c)
    ensures Trace(env, ws, acts) && ws != [] && All(env, Now(ws), gs, c, Shards(env.n))
  {
    hide Trace, All;
    ws, acts := Begin(env, gs);
    if c > 0 {
      ws, acts := GoOn(env, gs, ws, acts, 0, c);
      ws, acts := MoveAll(env, gs, ws, acts, c, {}, Shards(env.n));
    }
  }

  // ----- A number read too late -----

  /** Asked about configuration c2 what was listed in c1, the group's answer always means that the owner had it. */
  ghost predicate AlwaysSafe(env: Env, gs: set<int>, h: int, g: int, c1: nat, c2: nat, i: nat)
    requires EnvOk(env) && c2 < |env.configs| && i < env.n
  {
    forall ws, acts, listed: nat, at: nat, now: nat, theirs: nat
      {:trigger Trace(env, ws, acts), Checks(env, Now(ws), h, listed, at, now, g, theirs, i)} ::
      Trace(env, ws, acts) && ws != [] && Now(ws).groups.Keys == gs
      && Checks(env, Now(ws), h, listed, at, now, g, theirs, i)
      && At(env, Now(ws), h, listed).config.num == c1 && At(env, Now(ws), h, at).config.num == c2 ==>
        Inv.Held(env, Now(ws), c2, i)
  }

  /** The shard waits at group h for g in configuration c1, and again, for some group, in c2. */
  ghost predicate Waits(env: Env, h: int, g: int, c1: nat, c2: nat, i: nat)
    requires EnvOk(env)
  {
    && i < env.n && 2 <= c1 <= c2 < |env.configs|
    && Owner(env, c1 - 1, i) == h && Owner(env, c1, i) == g != h
    && Owner(env, c2 - 1, i) == h && Owner(env, c2, i) != h
  }

  /** The group h has listed the shard for g, and later it waits for another group while g has gone past that. */
  ghost predicate Overtaken(env: Env, w: World, h: int, listed: nat, g: int, c1: nat, c2: nat, i: nat)
    requires EnvOk(env) && Waits(env, h, g, c1, c2, i)
  {
    && GroupAt(env, w, h, c2, Shards(env.n) - {i}) && GroupAt(env, w, Owner(env, c2, i), c2, Shards(env.n) - {i})
    && GroupAt(env, w, g, c2 + 1, {})
    && listed < |w.groups[h].states| && Shaped(env.n, w.groups[h].states[listed])
    && w.groups[h].states[listed].config == env.configs[c1] && w.groups[h].states[listed].status[i] == BePulled
  }

  /** Where the owners differ, the group once listed can be past the number while the owner has nothing yet. */
  lemma Overtake(env: Env, gs: set<int>, h: int, g: int, c1: nat, c2: nat, i: nat)
    returns (ws: seq<World>, acts: seq<Action>, listed: nat)
    requires Owned(env, gs, c2) && c2 + 1 < |env.configs| && Waits(env, h, g, c1, c2, i) && Owner(env, c2, i) != g
    ensures Trace(env, ws, acts) && ws != [] && Now(ws).groups.Keys == gs
    ensures Overtaken(env, Now(ws), h, listed, g, c1, c2, i)
  {
    hide Trace, GroupAt;
    ws, acts := Begin(env, gs);
    ws, acts := GoOn(env, gs, ws, acts, 0, c1);
    assert GroupAt(env, Now(ws), h, c1, {});
    listed := ListedAt(env, Now(ws), h, c1, i);
    ghost var w := Now(ws);
    ws, acts := MoveAll(env, gs, ws, acts, c1, {}, Shards(env.n));
    ghost var w1 := Now(ws);
    ws, acts := GoOn(env, gs, ws, acts, c1, c2);
    GrowsOn(w, w1, Now(ws));
    ghost var w2 := Now(ws);
    ws, acts := MoveAll(env, gs, ws, acts, c2, {}, Shards(env.n) - {i});
    GrowsOn(w, w2, Now(ws));
    ghost var w3 := Now(ws);
    assert GroupAt(env, w3, g, c2, Shards(env.n) - {i}) && GroupAt(env, w3, h, c2, Shards(env.n) - {i});
    assert GroupAt(env, w3, Owner(env, c2, i), c2, Shards(env.n) - {i});
    NotConcerned(env, w3, g, c2, i);
    ws, acts := Configured(env, ws, acts, g, c2, Shards(env.n) - {i});
    GroupStill(env, w3, Now(ws), g, h, c2, Shards(env.n) - {i});
    GroupStill(env, w3, Now(ws), g, Owner(env, c2, i), c2, Shards(env.n) - {i});
    assert w.groups[h].states <= w3.groups[h].states;
  }

  lemma ListedAt(env: Env, w: World, h: int, c: nat, i: nat) returns (listed: nat)
    requires EnvOk(env) && GroupAt(env, w, h, c, {}) && i < env.n
    requires c >= 2 && Owner(env, c - 1, i) == h != Owner(env, c, i)
    ensures listed < |w.groups[h].states| && Shaped(env.n, w.groups[h].states[listed])
    ensures w.groups[h].states[listed].config == env.configs[c] && w.groups[h].states[listed].status[i] == BePulled
  {
    listed := |w.groups[h].states| - 1;
    assert Last(w.groups[h]).status[i] == Standing(env, h, c, i, false);
  }

  lemma NotConcerned(env: Env, w: World, g: int, c: nat, i: nat)
    requires EnvOk(env) && GroupAt(env, w, g, c, Shards(env.n) - {i}) && i < env.n
    requires c >= 2 && Owner(env, c - 1, i) != g && Owner(env, c, i) != g
    ensures Ready(Last(w.groups[g]))
  {
  }

  /** A shard still to be pulled has not been served in that configuration. */
  lemma NotHeldYet(env: Env, ws: seq<World>, acts: seq<Action>, c: nat, i: nat)
    requires Trace(env, ws, acts) && EnvOk(env) && ws != [] && c < |env.configs| && i < env.n && c >= 2
    requires Owner(env, c, i) != Owner(env, c - 1, i)
    requires GroupAt(env, Now(ws), Owner(env, c, i), c, Shards(env.n) - {i})
    ensures !Inv.Held(env, Now(ws), c, i)
  {
    var hist := TraceInv(env, ws, acts);
    var g := Owner(env, c, i);
    var group := Now(ws).groups[g];
    assert Inv.GroupOk(env, hist, g, group) && env.configs[c].num == c;
    assert Last(group).status[i] == Standing(env, g, c, i, false) == Pulling;
    hide Trace, Inv.Inv, Inv.GroupOk, Standing;
    forall k | 0 <= k < |group.states|
      ensures !Inv.HeldAt(group.states[k], c, i)
    {
      if group.states[k].config.num == c {
        Promises.StatusOnward(env, hist, g, group, k, |group.states| - 1, i);
      }
    }
  }

  /**
   A confirmation listed in configuration c1 and asked with the number c2 is always safe exactly when the group
   listed is still the owner in c2; with c1 == c2 it is.
   */
  lemma SafeExactlyWhenOwner(env: Env, gs: set<int>, h: int, g: int, c1: nat, c2: nat, i: nat)
    requires Owned(env, gs, c2) && c2 + 1 < |env.configs| && Waits(env, h, g, c1, c2, i)
    ensures AlwaysSafe(env, gs, h, g, c1, c2, i) <==> Owner(env, c2, i) == g
  {
    if Owner(env, c2, i) == g {
      SafeIfOwner(env, gs, h, g, c1, c2, i);
    } else {
      var ws, acts, listed := Overtake(env, gs, h, g, c1, c2, i);
      NotHeldYet(env, ws, acts, c2, i);
      var at := OvertakenChecks(env, Now(ws), h, listed, g, c1, c2, i);
      hide Trace, Checks, GroupAt, Inv.Held;
    }
  }

  lemma OvertakenChecks(env: Env, w: World, h: int, listed: nat, g: int, c1: nat, c2: nat, i: nat) returns (at: nat)
    requires EnvOk(env) && Waits(env, h, g, c1, c2, i) && c2 + 1 < |env.configs|
    requires Overtaken(env, w, h, listed, g, c1, c2, i)
    ensures Checks(env, w, h, listed, at, at, g, |w.groups[g].states| - 1, i)
    ensures At(env, w, h, listed).config.num == c1 && At(env, w, h, at).config.num == c2
  {
    at := |w.groups[h].states| - 1;
    assert env.configs[c1].num == c1 && env.configs[c2].num == c2 && env.configs[c2 + 1].num == c2 + 1;
    hide Standing;
  }

  lemma SafeIfOwner(env: Env, gs: set<int>, h: int, g: int, c1: nat, c2: nat, i: nat)
    requires EnvOk(env) && Waits(env, h, g, c1, c2, i) && Owner(env, c2, i) == g
    ensures AlwaysSafe(env, gs, h, g, c1, c2, i)
  {
    forall ws, acts, listed: nat, at: nat, now: nat, theirs: nat
      | Trace(env, ws, acts) && ws != [] && Now(ws).groups.Keys == gs
        && Checks(env, Now(ws), h, listed, at, now, g, theirs, i)
        && At(env, Now(ws), h, listed).config.num == c1 && At(env, Now(ws), h, at).config.num == c2
      ensures Inv.Held(env, Now(ws), c2, i)
    {
      ReadIsConfig(env, ws, acts, h, at);
      Promises.ConfirmedByOwner(env, ws, acts, |ws| - 1, h, listed, at, now, g, theirs, i);
    }
  }

  lemma ReadIsConfig(env: Env, ws: seq<World>, acts: seq<Action>, h: int, at: nat)
    requires Trace(env, ws, acts) && ws != [] && ReadsAt(env, Now(ws), h, at)
    ensures var config := At(env, Now(ws), h, at).config;
      config.num < |env.configs| && config == env.configs[config.num]
  {
    var hist := TraceInv(env, ws, acts);
    assert Inv.GroupOk(env, hist, h, Now(ws).groups[h]);
    assert Inv.Base(env, hist, Now(ws).groups[h].states[at]);
  }

  /** One shard, which goes from group 1 to 2, back to 1, and then to 3. */
  const THERE_AND_BACK :=
    Env(1, [NoConfig(1), Config(1, [1]), Config(2, [2]), Config(3, [1]), Config(4, [3]), Config(5, [3])])

  /**
   The shard is listed for group 2 in configuration 2 and the number read in configuration 4: group 2, which has
   gone on, says that it is done, and group 1 drops the shard that group 3 has never had.
   */
  lemma LateNumberDropsEarly() returns (ws: seq<World>, acts: seq<Action>, listed: nat, at: nat, theirs: nat, w2: World)
    ensures EnvOk(THERE_AND_BACK) && Trace(THERE_AND_BACK, ws, acts) && ws != []
    ensures Checks(THERE_AND_BACK, Now(ws), 1, listed, at, at, 2, theirs, 0)
    ensures At(THERE_AND_BACK, Now(ws), 1, listed).config.num == 2 && At(THERE_AND_BACK, Now(ws), 1, at).config.num == 4
    ensures w2 == Propose(Now(ws), 1, Confirm(4, 0)) && Enabled(THERE_AND_BACK, w2, Commit(1, Confirm(4, 0)))
    ensures CanApply(THERE_AND_BACK, w2, Commit(1, Confirm(4, 0)))
    ensures DropsPart(1, Last(w2.groups[1]), 4, 0) && !Inv.Held(THERE_AND_BACK, w2, 4, 0)
  {
    ThereAndBack();
    hide Trace, Checks;
    ws, acts, listed := Overtake(THERE_AND_BACK, {1, 2, 3}, 1, 2, 2, 4, 0);
    NotHeldYet(THERE_AND_BACK, ws, acts, 4, 0);
    at := OvertakenChecks(THERE_AND_BACK, Now(ws), 1, listed, 2, 2, 4, 0);
    theirs := |Now(ws).groups[2].states| - 1;
    w2 := Propose(Now(ws), 1, Confirm(4, 0));
    assert Last(w2.groups[1]).status[0] == BePulled;
    assert w2.groups[3] == Now(ws).groups[3];
  }

  lemma ThereAndBack()
    ensures Owned(THERE_AND_BACK, {1, 2, 3}, 4) && Waits(THERE_AND_BACK, 1, 2, 2, 4, 0)
  {
    var configs := THERE_AND_BACK.configs;
    assert forall c {:trigger configs[c]} :: 0 <= c < 6 ==> configs[c].num == c && |configs[c].shards| == 1;
    forall d: nat, i: nat | 1 <= d <= 4 && i < 1
      ensures Owner(THERE_AND_BACK, d, i) in {1, 2, 3}
    {
      assert d == 1 || d == 2 || d == 3 || d == 4;
    }
  }
}
