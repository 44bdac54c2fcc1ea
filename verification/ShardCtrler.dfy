/** The controller itself: loops over maps in any order, and a list of configurations that only grows. */
module ShardCtrler {
  import opened Rebalance
  import opened FewestMoves
  import opened ConfigHistory

  // ----- Rebalancing, step by step -----

  /** Sorts the groups. */
  method SortInts(a: seq<int>) returns (r: seq<int>)
    requires Distinct(a)
    ensures Ascending(r) && forall g {:trigger g in r} {:trigger g in a} :: g in r <==> g in a
  {
    r := [];
    for i := 0 to |a|
      invariant Ascending(r) && forall g {:trigger g in r} :: g in r <==> g in a[..i]
    {
      var k := |r|;
      while k > 0 && a[i] < r[k - 1]
        invariant 0 <= k <= |r|
        invariant forall j :: k <= j < |r| ==> a[i] < r[j]
      {
        k := k - 1;
      }
      assert k > 0 ==> r[k - 1] in r;
      assert a[i] !in a[..i];
      Inserted(r, a[i], k);
      r := r[..k] + [a[i]] + r[k..];
      assert a[..i + 1] == a[..i] + [a[i]];
    }
    assert a[..|a|] == a;
  }

  lemma Inserted(r: seq<int>, x: int, k: nat)
    requires Ascending(r) && k <= |r| && (k > 0 ==> r[k - 1] <= x) && x !in r && forall j :: k <= j < |r| ==> x < r[j]
    ensures Ascending(r[..k] + [x] + r[k..])
    ensures forall g {:trigger g in r[..k] + [x] + r[k..]} :: g in r[..k] + [x] + r[k..] <==> g in r || g == x
  {
    var r2 := r[..k] + [x] + r[k..];
    assert k > 0 ==> r[k - 1] in r;
    assert forall j {:trigger r[j]} :: 0 <= j < k ==> r[j] < x;
    forall i, j | 0 <= i < j < |r2|
      ensures r2[i] < r2[j]
    {
      assert r2[i] == (if i < k then r[i] else if i == k then x else r[i - 1]);
      assert r2[j] == (if j < k then r[j] else if j == k then x else r[j - 1]);
    }
    SameMembers(r, x, k);
  }

  lemma SameMembers(r: seq<int>, x: int, k: nat)
    requires k <= |r|
    ensures forall g {:trigger g in r[..k] + [x] + r[k..]} :: g in r[..k] + [x] + r[k..] <==> g in r || g == x
  {
    assert r == r[..k] + r[k..];
  }

  /** The live groups, whatever order the map is walked in. */
  method LiveGroups(m: Owners) returns (liveGroup: seq<int>)
    ensures liveGroup == Ordered(m.Keys)
  {
    var keys, left := [], m.Keys;
    while left != {}
      invariant left <= m.Keys && Distinct(keys)
      invariant forall g {:trigger g in keys} :: g in keys <==> g in m.Keys - left
      decreases left
    {
      ghost var some := Member(left);
      var key :| key in left;
      assert key !in keys;
      left := left - {key};
      keys := keys + [key];
    }
    liveGroup := SortInts(keys);
    OrderUnique(liveGroup, Ordered(m.Keys), m.Keys);
  }

  /** Lists the shards of every live group. */
  method GetGIDToShards(shards: seq<int>, newMap: map<int, seq<string>>) returns (m: Owners)
    ensures m == Owned(shards, newMap.Keys)
  {
    m := map[];
    var left := newMap.Keys;
    while left != {}
      invariant left <= newMap.Keys && m == map g | g in newMap.Keys - left :: []
      decreases left
    {
      ghost var some := Member(left);
      var gid :| gid in left;
      left := left - {gid};
      m := m[gid := []];
    }
    assert m == Owned(shards[..0], newMap.Keys);
    for i := 0 to |shards|
      invariant m == Owned(shards[..i], newMap.Keys)
    {
      var gid := shards[i];
      assert shards[..i + 1][..i] == shards[..i];
      if gid in newMap {
        m := m[gid := m[gid] + [i]];
      }
      assert forall g :: g in m ==> m[g] == Own(shards[..i + 1], g);
    }
    assert shards[..|shards|] == shards;
  }

  method FreeShards(shards: seq<int>, m: Owners) returns (free: seq<nat>)
    ensures free == Free(shards, m.Keys)
  {
    free := [];
    for i := 0 to |shards|
      invariant free == Free(shards[..i], m.Keys)
    {
      var gid := shards[i];
      assert shards[..i + 1][..i] == shards[..i];
      if gid == 0 {
        free := free + [i];
      } else if gid !in m {
        free := free + [i];
      }
    }
    assert shards[..|shards|] == shards;
  }

  /** Finds the fullest and the emptiest group in one pass. */
  method Scan(liveGroup: seq<int>, m: Owners, n: nat) returns (maxShards: int, maxGID: int, minShards: int, minGID: int)
    requires Covers(liveGroup, m) && forall k {:trigger liveGroup[k]} :: 0 <= k < |liveGroup| ==> |m[liveGroup[k]]| <= n
    ensures liveGroup == [] ==> maxShards == -1 && minShards == n + 1 && minGID == -1
    ensures liveGroup != [] ==>
      maxGID == Fullest(liveGroup, m) && maxShards == |m[maxGID]| && minGID == Emptiest(liveGroup, m)
        && minShards == |m[minGID]|
  {
    maxShards, maxGID, minShards, minGID := -1, -1, n + 1, -1;
    for k := 0 to |liveGroup|
      invariant k == 0 ==> maxShards == -1 && minShards == n + 1 && minGID == -1
      invariant k > 0 ==>
        && maxGID == Fullest(liveGroup[..k], m) && maxShards == |m[maxGID]|
        && minGID == Emptiest(liveGroup[..k], m) && minShards == |m[minGID]|
    {
      var gid := liveGroup[k];
      assert liveGroup[..k + 1][..k] == liveGroup[..k];
      if |m[gid]| > maxShards {
        maxShards, maxGID := |m[gid]|, gid;
      }
      if |m[gid]| < minShards {
        minShards, minGID := |m[gid]|, gid;
      }
    }
    assert liveGroup[..|liveGroup|] == liveGroup;
  }

  /** A shard is marked as moved exactly when it is with another group than before. */
  ghost predicate Marked(shards: seq<int>, at: map<nat, int>, moved: set<nat>) {
    forall i: nat {:trigger i in moved} :: i in moved <==> i < |shards| && i in at && at[i] != shards[i]
  }

  /** What each turn of the loop keeps: the same lists will come out. */
  ghost predicate Running(shards: seq<int>, live: set<int>, order: seq<int>, m: Owners, free: seq<nat>,
                          at: map<nat, int>, moved: set<nat>): (b: bool)
    ensures b ==> order != [] && Lists(order, m) && m.Keys == live
  {
    && order != [] && Lists(order, m) && m.Keys == live && Lists(order, Owned(shards, live))
    && Kept(shards, m, at, free) && (free != [] ==> NoDonors(shards, m))
    && (forall x {:trigger free[x]} :: 0 <= x < |free| ==> free[x] < |shards| && IsFree(shards[free[x]], live))
    && Settled(order, m, free) == Settled(order, Owned(shards, live), Free(shards, live))
    && Marked(shards, at, moved)
  }

  lemma Sizes(shards: seq<int>, m: Owners, at: map<nat, int>, free: seq<nat>, g: int)
    requires Kept(shards, m, at, free) && g in m
    ensures |m[g]| <= |shards|
  {
    assert NoRepeat(m[g]);
    ElementsSize(m[g]);
    forall x | x in Elements(m[g])
      ensures x in Indexes(|shards|)
    {
      var k :| 0 <= k < |m[g]| && m[g][k] == x;
      assert m[g][k] in at && at[x] == g;
    }
    SubsetSize(Elements(m[g]), Indexes(|shards|));
  }

  lemma RunStart(shards: seq<int>, live: set<int>, order: seq<int>) returns (at: map<nat, int>)
    requires live != {} && 0 !in live && order == Ordered(live)
    ensures Running(shards, live, order, Owned(shards, live), Free(shards, live), at, {})
  {
    OrderOk(order, shards, live);
    at := StartPlaced(shards, live);
    hide Lists, NoDonors, Settled, Enumerates;
    forall i: nat | i < |shards| && i in at
      ensures at[i] == shards[i]
    {
      StartsAt(shards, live, at, i);
    }
  }

  lemma StartsAt(shards: seq<int>, live: set<int>, at: map<nat, int>, i: nat)
    requires Kept(shards, Owned(shards, live), at, Free(shards, live)) && i in at && i < |shards|
    ensures at[i] == shards[i]
  {
    var m := Owned(shards, live);
    assert at[i] in m && i in m[at[i]];
  }

  lemma SettledFill(order: seq<int>, m: Owners, free: seq<nat>)
    requires order != [] && Lists(order, m) && free != []
    ensures var g := Emptiest(order, m); var m2 := m[g := m[g] + [free[0]]];
      Covers(order, m2) && Settled(order, m2, free[1..]) == Settled(order, m, free)
  {
  }

  lemma SettledMove(order: seq<int>, m: Owners)
    requires order != [] && Lists(order, m) && |m[Fullest(order, m)]| - |m[Emptiest(order, m)]| >= 2
    ensures var m2 := Shift(m, Fullest(order, m), Emptiest(order, m));
      Covers(order, m2) && Settled(order, m2, []) == Settled(order, m, [])
  {
    ShiftShrinks(order, m, Fullest(order, m), Emptiest(order, m));
  }

  lemma SettledNow(order: seq<int>, m: Owners)
    requires order != [] && Lists(order, m) && |m[Fullest(order, m)]| - |m[Emptiest(order, m)]| <= 1
    ensures Settled(order, m, []) == m
  {
  }

  lemma MarkedAfter(shards: seq<int>, at: map<nat, int>, moved: set<nat>, x: nat, g: int)
    requires Marked(shards, at, moved) && x < |shards| && shards[x] != g
    ensures Marked(shards, at[x := g], moved + {x})
  {
  }

  lemma RunFill(shards: seq<int>, live: set<int>, order: seq<int>, m: Owners, free: seq<nat>, at: map<nat, int>,
                moved: set<nat>)
    requires 0 !in live && free != [] && Running(shards, live, order, m, free, at, moved)
    ensures var g := Emptiest(order, m);
      Running(shards, live, order, m[g := m[g] + [free[0]]], free[1..], at[free[0] := g], moved + {free[0]})
  {
    hide Kept, NoDonors, Lists, Settled, Marked, Owned, Free, Emptiest;
    FillStep(shards, order, m, at, free);
    SettledFill(order, m, free);
    var g := Emptiest(order, m);
    assert g in m;
    assert IsFree(shards[free[0]], live);
    MarkedAfter(shards, at, moved, free[0], g);
  }

  lemma RunMove(shards: seq<int>, live: set<int>, order: seq<int>, m: Owners, at: map<nat, int>, moved: set<nat>)
    requires Running(shards, live, order, m, [], at, moved) && |m[Fullest(order, m)]| - |m[Emptiest(order, m)]| >= 2
    ensures var d, e := Fullest(order, m), Emptiest(order, m); var x := m[d][|m[d]| - 1];
      Running(shards, live, order, Shift(m, d, e), [], at[x := e], moved + {x})
  {
    hide Kept, NoDonors, Settled, Marked, Owned, Free, Fullest, Emptiest, Shift;
    var d, e := Fullest(order, m), Emptiest(order, m);
    var x := m[d][|m[d]| - 1];
    SettledMove(order, m);
    Extremes(order, m);
    LastIsOwn(shards, m, at, d, e);
    ShiftKeeps(shards, m, at, d, e);
    assert Lists(order, Shift(m, d, e));
    hide Lists;
    MarkedAfter(shards, at, moved, x, e);
  }

  lemma LastIsOwn(shards: seq<int>, m: Owners, at: map<nat, int>, d: int, e: int)
    requires Kept(shards, m, at, []) && d in m && e in m && |m[d]| - |m[e]| >= 2
    requires forall h {:trigger m[h]} :: h in m ==> |m[e]| <= |m[h]| <= |m[d]|
    ensures var x := m[d][|m[d]| - 1]; x < |shards| && shards[x] == d != e
  {
    var x := m[d][|m[d]| - 1];
    MoveTame(shards, m, d, m[d][..|m[d]| - 1], e, m[e] + [x]);
    assert Holds(shards, d, m[d]);
  }

  lemma RunEnd(shards: seq<int>, live: set<int>, order: seq<int>, m: Owners, at: map<nat, int>, moved: set<nat>)
    requires live != {} && order == Ordered(live) && Running(shards, live, order, m, [], at, moved)
    requires |m[Fullest(order, m)]| - |m[Emptiest(order, m)]| <= 1
    ensures WritesOut(shards, live, order, m, moved)
  {
    hide Owned, Free, Fullest, Emptiest, Kept, WriteAll, Lists, Zeros, Settled, NoDonors, Marked;
    SettledNow(order, m);
    InRange(shards, m, at);
    MarkedIsChanged(shards, order, m, at, moved);
  }

  lemma InRange(shards: seq<int>, m: Owners, at: map<nat, int>)
    requires Kept(shards, m, at, [])
    ensures forall g, x {:trigger m[g][x]} :: g in m && 0 <= x < |m[g]| ==> m[g][x] < |shards|
  {
    hide Comparable, Tame;
    forall g, x | g in m && 0 <= x < |m[g]|
      ensures m[g][x] < |shards|
    {
      var i := m[g][x];
      assert i in at && at[i] == g;
    }
  }

  lemma MarkedIsChanged(shards: seq<int>, order: seq<int>, m: Owners, at: map<nat, int>, moved: set<nat>)
    requires Kept(shards, m, at, []) && Lists(order, m) && Marked(shards, at, moved)
    ensures moved == Changed(shards, WriteAll(order, m, Zeros(|shards|)))
  {
    hide Comparable, Tame;
    Written(|shards|, order, m, at);
    hide Kept, Lists, WriteAll, Zeros;
    var r := WriteAll(order, m, Zeros(|shards|));
    forall i: nat | i < |shards|
      ensures i in moved <==> r[i] != shards[i]
    {
    }
  }

  lemma EmptyOrder()
    ensures Ordered({}) == []
  {
    OrderUnique([], Ordered({}), {});
  }

  /** Writes each live group into the slots of its shards. */
  method WriteGroups(liveGroup: seq<int>, m: Owners, newShards: array<int>)
    requires Covers(liveGroup, m)
    requires forall k, x {:trigger m[liveGroup[k]][x]} :: 0 <= k < |liveGroup| && 0 <= x < |m[liveGroup[k]]| ==>
      m[liveGroup[k]][x] < newShards.Length
    modifies newShards
    ensures newShards[..] == WriteAll(liveGroup, m, old(newShards[..]))
  {
    for k := 0 to |liveGroup|
      invariant newShards[..] == WriteAll(liveGroup[..k], m, old(newShards[..]))
    {
      var gid := liveGroup[k];
      var s := m[gid];
      ghost var slots := newShards[..];
      for x := 0 to |s|
        invariant newShards[..] == Write(slots, s[..x], gid)
      {
        assert s[x] == m[liveGroup[k]][x];
        assert s[..x + 1][..x] == s[..x];
        newShards[s[x]] := gid;
      }
      assert s[..|s|] == s;
      assert liveGroup[..k + 1][..k] == liveGroup[..k];
    }
    assert liveGroup[..|liveGroup|] == liveGroup;
  }

  /** With no live group, every shard is free. */
  lemma AllFree(shards: seq<int>)
    ensures forall i: nat {:trigger i in Free(shards, {})} :: i in Free(shards, {}) <==> i < |shards|
  {
  }

  /** Fills with free shards, then evens out. */
  method Settle(liveGroup: seq<int>, gitToShards: Owners, freeShards: seq<nat>, n: nat, ghost shards: seq<int>,
                ghost live: set<int>)
    returns (m: Owners, moveShards: set<nat>)
    requires gitToShards == Owned(shards, live) && freeShards == Free(shards, live) && liveGroup == Ordered(live)
    requires 0 !in live && n == |shards|
    ensures live == {} ==> liveGroup == [] && forall i: nat {:trigger i in moveShards} :: i in moveShards <==> i < n
    ensures live != {} ==> WritesOut(shards, live, liveGroup, m, moveShards)
  {
    hide Running, Squares, Fullest, Emptiest, Free, Owned, Lists, WritesOut;
    m, moveShards := gitToShards, {};
    var freeShardsIndex := 0;
    ghost var at: map<nat, int> := map[];
    if live != {} {
      at := RunStart(shards, live, liveGroup);
    } else {
      EmptyOrder();
    }
    assert freeShards[0..] == freeShards;
    while true
      invariant freeShardsIndex <= |freeShards|
      invariant live != {} ==> Running(shards, live, liveGroup, m, freeShards[freeShardsIndex..], at, moveShards)
      invariant live == {} ==>
        && liveGroup == []
        && forall i {:trigger i in moveShards} :: i in moveShards <==> i in freeShards[..freeShardsIndex]
      decreases |freeShards| - freeShardsIndex, if live == {} then 0 else Squares(liveGroup, m)
    {
      ghost var rest := freeShards[freeShardsIndex..];
      if live != {} { RunSizes(shards, live, liveGroup, m, rest, at, moveShards); }
      var maxShards, maxGID, minShards, minGID := Scan(liveGroup, m, n);
      if maxShards - minShards <= 1 && freeShardsIndex >= |freeShards| {
        assert rest == [] && freeShards[..freeShardsIndex] == freeShards;
        if live == {} { AllFree(shards); }
        if live != {} { RunEnd(shards, live, liveGroup, m, at, moveShards); }
        break;
      } else {
        if freeShardsIndex < |freeShards| {
          var moveShardIndex := freeShards[freeShardsIndex];
          if live != {} { RunFill(shards, live, liveGroup, m, rest, at, moveShards); }
          assert rest[1..] == freeShards[freeShardsIndex + 1..];
          m := m[minGID := (if minGID in m then m[minGID] else []) + [moveShardIndex]];
          moveShards := moveShards + {moveShardIndex};
          at := at[moveShardIndex := minGID];
          freeShardsIndex := freeShardsIndex + 1;
          continue;
        }
        assert rest == [];
        RunMove(shards, live, liveGroup, m, at, moveShards);
        ShiftShrinks(liveGroup, m, maxGID, minGID);
        var length := |m[maxGID]|;
        var moveShardIndex := m[maxGID][length - 1];
        m := m[maxGID := m[maxGID][..length - 1]];
        m := m[minGID := m[minGID] + [moveShardIndex]];
        moveShards := moveShards + {moveShardIndex};
        at := at[moveShardIndex := minGID];
      }
    }
  }

  /** Writing the lists out gives the new assignment, and exactly the shards with a new group are marked. */
  ghost predicate WritesOut(shards: seq<int>, live: set<int>, order: seq<int>, m: Owners, moved: set<nat>) {
    && Covers(order, m) && WriteAll(order, m, Zeros(|shards|)) == Rebalanced(shards, live)
    && (forall g, x {:trigger m[g][x]} :: g in m && 0 <= x < |m[g]| ==> m[g][x] < |shards|)
    && moved == Changed(shards, Rebalanced(shards, live))
  }

  lemma RunSizes(shards: seq<int>, live: set<int>, order: seq<int>, m: Owners, free: seq<nat>, at: map<nat, int>,
                 moved: set<nat>)
    requires Running(shards, live, order, m, free, at, moved)
    ensures order != [] && Lists(order, m) && m.Keys == live
    ensures forall k {:trigger order[k]} :: 0 <= k < |order| ==> |m[order[k]]| <= |shards|
  {
    hide Kept, Settled, NoDonors, Owned, Free;
    forall k | 0 <= k < |order|
      ensures |m[order[k]]| <= |shards|
    {
      Sizes(shards, m, at, free, order[k]);
    }
  }

  /** Spreads the shards over the live groups. */
  method RebalanceShards(gitToShards: Owners, oldShards: seq<int>, newMap: map<int, seq<string>>)
    returns (newShards: array<int>, moveShards: set<nat>)
    requires gitToShards == Owned(oldShards, newMap.Keys) && 0 !in newMap
    ensures fresh(newShards) && newShards[..] == Rebalanced(oldShards, newMap.Keys)
    ensures newMap.Keys != {} ==> moveShards == Changed(oldShards, newShards[..])
    ensures newMap.Keys == {} ==> forall i: nat {:trigger i in moveShards} :: i in moveShards <==> i < |oldShards|
  {
    newShards := new int[|oldShards|](i => 0);
    assert newShards[..] == Zeros(|oldShards|);
    assert gitToShards.Keys == newMap.Keys;
    var liveGroup := LiveGroups(gitToShards);
    var freeShards := FreeShards(oldShards, gitToShards);
    var m;
    m, moveShards := Settle(liveGroup, gitToShards, freeShards, |oldShards|, oldShards, newMap.Keys);
    WriteGroups(liveGroup, m, newShards);
  }

  // ----- The server -----

  class Server {
    const nShards: nat
    var configs: seq<Config>
    var clientSeq: map<int, int>

    ghost predicate Valid()
      reads this
    {
      && configs != [] && |configs[|configs| - 1].shards| == nShards && 0 !in configs[|configs| - 1].groups
      && forall c {:trigger clientSeq[c]} :: c in clientSeq ==> clientSeq[c] == 0
    }

    constructor (n: nat)
      ensures Valid() && nShards == n && configs == Initial(n)
    {
      nShards := n;
      configs := [Config(0, Zeros(n), map[])];
      clientSeq := map[];
    }

    /** Handles one applied command. */
    method OnApply(op: Op)
      requires Valid() && Sensible(nShards, op)
      modifies this
      ensures Valid() && configs == Apply(old(configs), op)
    {
      if op.clientId !in clientSeq {
        clientSeq := clientSeq[op.clientId := 0];
      }
      if op.seqNum <= clientSeq[op.clientId] {
      } else {
        ApplyToStateMachine(op);
      }
    }

    method ApplyToStateMachine(op: Op)
      requires Valid() && Sensible(nShards, op) && op.seqNum > 0
      modifies this`configs
      ensures Valid() && configs == Apply(old(configs), op)
    {
      hide Rebalanced;
      var last := configs[|configs| - 1];
      match op.args {
        case Join(servers) =>
          var copyMap := JoinGroups(last.groups, servers);
          var newShards := Regroup(last.shards, copyMap);
          configs := configs + [Config(last.num + 1, newShards, copyMap)];
        case Leave(gids) =>
          var copyMap := LeaveGroups(last.groups, gids);
          var newShards := Regroup(last.shards, copyMap);
          configs := configs + [Config(last.num + 1, newShards, copyMap)];
        case Move(shard, gid) =>
          configs := configs + [Config(last.num + 1, last.shards[shard := gid], last.groups)];
        case Query(_) =>
      }
    }

    /** The configuration asked for, or the latest. */
    method GetConfig(index: int) returns (c: Config)
      requires Valid() && index >= -1
      ensures c == configs[if 0 <= index < |configs| then index else |configs| - 1]
    {
      var lastConfig := configs[|configs| - 1];
      if index == -1 || index >= |configs| {
        return lastConfig;
      } else {
        return configs[index];
      }
    }
  }

  method JoinGroups(groups: map<int, seq<string>>, servers: map<int, seq<string>>)
    returns (copyMap: map<int, seq<string>>)
    ensures copyMap == groups + servers
  {
    copyMap := groups;
    var left := servers.Keys;
    while left != {}
      invariant left <= servers.Keys && copyMap == groups + (map g | g in servers.Keys - left :: servers[g])
      decreases left
    {
      ghost var some := Member(left);
      var gid :| gid in left;
      left := left - {gid};
      if gid in copyMap {
        copyMap := copyMap - {gid};
      }
      copyMap := copyMap[gid := servers[gid]];
    }
  }

  method LeaveGroups(groups: map<int, seq<string>>, gids: seq<int>) returns (copyMap: map<int, seq<string>>)
    ensures copyMap == groups - set g | g in gids
  {
    copyMap := groups;
    for i := 0 to |gids|
      invariant copyMap == groups - set g | g in gids[..i]
    {
      copyMap := copyMap - {gids[i]};
    }
    assert gids[..|gids|] == gids;
  }

  method Regroup(shards: seq<int>, groups: map<int, seq<string>>) returns (newShards: seq<int>)
    requires 0 !in groups
    ensures newShards == Rebalanced(shards, groups.Keys)
  {
    var gidToShardsMap := GetGIDToShards(shards, groups);
    var slots, moved := RebalanceShards(gidToShardsMap, shards, groups);
    newShards := slots[..];
  }

  /**
   A replica that applies the operations one by one ends with the history of their sequence, whatever order maps are
   walked in.
   */
  method Replay(n: nat, ops: seq<Op>) returns (replica: Server)
    requires AllSensible(n, ops)
    ensures fresh(replica) && replica.nShards == n && replica.configs == History(n, ops)
  {
    replica := new Server(n);
    for i := 0 to |ops|
      invariant fresh(replica) && replica.Valid() && replica.nShards == n
      invariant AllSensible(n, ops[..i]) && replica.configs == History(n, ops[..i])
    {
      assert ops[..i + 1][..i] == ops[..i];
      replica.OnApply(ops[i]);
    }
    assert ops[..|ops|] == ops;
  }
}
