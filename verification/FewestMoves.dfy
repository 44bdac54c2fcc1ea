/** What rebalancing achieves: every shard placed, sizes within one, and as few shards moved as possible. */
module FewestMoves {
  import opened Rebalance

  // ----- Counting by group -----

  ghost function Fiber(s: set<nat>, a: seq<int>, g: int): set<nat> {
    set i | i in s && i < |a| && a[i] == g
  }

  ghost function FiberSizes(order: seq<int>, s: set<nat>, a: seq<int>): map<int, int> {
    map g | g in order :: |Fiber(s, a, g)|
  }

  lemma {:induction false} TotalSame(order: seq<int>, s: map<int, int>, t: map<int, int>)
    requires forall k {:trigger order[k]} :: 0 <= k < |order| ==>
      order[k] in s && order[k] in t && s[order[k]] == t[order[k]]
    ensures Total(order, s) == Total(order, t)
  {
    if order != [] {
      var n := |order| - 1;
      TotalSame(order[..n], s, t);
    }
  }

  lemma {:induction false} TotalSum(order: seq<int>, s: map<int, int>, t: map<int, int>, u: map<int, int>)
    requires forall k {:trigger order[k]} :: 0 <= k < |order| ==>
      order[k] in s && order[k] in t && order[k] in u && s[order[k]] + t[order[k]] == u[order[k]]
    ensures Total(order, s) + Total(order, t) == Total(order, u)
  {
    if order != [] {
      var n := |order| - 1;
      TotalSum(order[..n], s, t, u);
    }
  }

  /** The sizes of the groups add up. */
  lemma {:induction false} Fibers(order: seq<int>, s: set<nat>, a: seq<int>)
    requires Distinct(order) && forall i {:trigger i in s} :: i in s ==> i < |a| && a[i] in order
    ensures Total(order, FiberSizes(order, s, a)) == |s|
  {
    if order == [] {
      assert s == {};
    } else {
      var n := |order| - 1;
      var rest, last := order[..n], order[n];
      assert order == rest + [last];
      var f := Fiber(s, a, last);
      var s1 := s - f;
      assert s == s1 + f;
      Fibers(rest, s1, a);
      forall k | 0 <= k < |rest|
        ensures FiberSizes(order, s, a)[rest[k]] == FiberSizes(rest, s1, a)[rest[k]]
      {
        assert rest[k] in order && rest[k] in rest;
        assert Fiber(s, a, rest[k]) == Fiber(s1, a, rest[k]);
      }
      TotalSame(rest, FiberSizes(order, s, a), FiberSizes(rest, s1, a));
    }
  }

  // ----- Sizes of lists and of sets -----

  ghost function Elements(s: seq<nat>): set<nat> {
    set x | x in s
  }

  lemma {:induction false} ElementsSize(s: seq<nat>)
    requires NoRepeat(s)
    ensures |Elements(s)| == |s|
  {
    if s != [] {
      var n := |s| - 1;
      ElementsSize(s[..n]);
      assert s == s[..n] + [s[n]];
      assert Elements(s) == Elements(s[..n]) + {s[n]};
    }
  }

  lemma {:induction false} SubsetSize(a: set<nat>, b: set<nat>)
    requires a <= b
    ensures |a| <= |b|
  {
    assert b == a + (b - a);
  }

  lemma OwnSize(a: seq<int>, g: int, s: seq<nat>)
    requires NoRepeat(s) && forall i {:trigger i in s} :: i in s <==> 0 <= i < |a| && a[i] == g
    ensures |Own(a, g)| == |s|
  {
    ElementsSize(s);
    ElementsSize(Own(a, g));
    assert Elements(s) == Elements(Own(a, g));
  }

  ghost function Indexes(n: nat): (r: set<nat>)
    ensures |r| == n && forall i :: i in r <==> 0 <= i < n
  {
    if n == 0 then {} else Indexes(n - 1) + {n - 1}
  }

  ghost function OwnSizes(live: set<int>, a: seq<int>): (s: map<int, int>)
    ensures s.Keys == live
  {
    map g | g in live :: |Own(a, g)|
  }

  lemma OwnTotal(order: seq<int>, live: set<int>, a: seq<int>)
    requires Enumerates(order, live) && Assigned(a, live)
    ensures forall k {:trigger order[k]} :: 0 <= k < |order| ==> order[k] in OwnSizes(live, a)
    ensures Total(order, OwnSizes(live, a)) == |a|
  {
    var all := Indexes(|a|);
    forall i | i in all
      ensures i < |a| && a[i] in order
    {
      var g := a[i];
      assert g in live;
      assert g in order;
    }
    Fibers(order, all, a);
    forall k | 0 <= k < |order|
      ensures order[k] in live && OwnSizes(live, a)[order[k]] == FiberSizes(order, all, a)[order[k]]
    {
      assert order[k] in order;
      ElementsSize(Own(a, order[k]));
      assert Elements(Own(a, order[k])) == Fiber(all, a, order[k]);
    }
    TotalSame(order, OwnSizes(live, a), FiberSizes(order, all, a));
  }

  // ----- How many shards can stay -----

  function Min(a: int, b: int): int {
    if a < b then a else b
  }

  ghost function MinMap(live: set<int>, o: map<int, int>, a: map<int, int>): map<int, int>
    requires live <= o.Keys && live <= a.Keys
  {
    map g | g in live :: Min(o[g], a[g])
  }

  /** For each group, the smaller of its two sizes. */
  ghost function Overlap(live: set<int>, shards: seq<int>, a: seq<int>): map<int, int> {
    MinMap(live, OwnSizes(live, shards), OwnSizes(live, a))
  }

  lemma InLive(order: seq<int>, live: set<int>)
    requires Enumerates(order, live)
    ensures forall k {:trigger order[k]} :: 0 <= k < |order| ==> order[k] in live
  {
    forall k | 0 <= k < |order| ensures order[k] in live { assert order[k] in order; }
  }

  /** No assignment keeps more than, group by group, what fits. */
  lemma SameAtMost(order: seq<int>, live: set<int>, shards: seq<int>, a: seq<int>)
    requires Enumerates(order, live) && Assigned(a, live) && |a| == |shards|
    ensures forall k {:trigger order[k]} :: 0 <= k < |order| ==> order[k] in live
    ensures |Same(shards, a)| <= Total(order, Overlap(live, shards, a))
  {
    InLive(order, live);
    var same := Same(shards, a);
    Fibers(order, same, a);
    forall k | 0 <= k < |order|
      ensures FiberSizes(order, same, a)[order[k]] <= Overlap(live, shards, a)[order[k]]
    {
      var g := order[k];
      var f := Fiber(same, a, g);
      ElementsSize(Own(shards, g));
      ElementsSize(Own(a, g));
      SubsetSize(f, Elements(Own(shards, g)));
      SubsetSize(f, Elements(Own(a, g)));
    }
    TotalAtLeast(order, FiberSizes(order, same, a), Overlap(live, shards, a));
  }

  /** The new assignment keeps exactly that many. */
  lemma SameAtLeast(order: seq<int>, live: set<int>, shards: seq<int>, m: Owners, r: seq<int>)
    requires Enumerates(order, live) && Finished(shards, live, m, r)
    ensures forall k {:trigger order[k]} :: 0 <= k < |order| ==> order[k] in live
    ensures |Same(shards, r)| >= Total(order, Overlap(live, shards, r))
  {
    InLive(order, live);
    var same := Same(shards, r);
    Fibers(order, same, r);
    forall k | 0 <= k < |order|
      ensures FiberSizes(order, same, r)[order[k]] >= Overlap(live, shards, r)[order[k]]
    {
      var g := order[k];
      assert g in order;
      KeepsOverlap(shards, live, m, r, g);
    }
    TotalAtLeast(order, Overlap(live, shards, r), FiberSizes(order, same, r));
  }

  lemma KeepsOverlap(shards: seq<int>, live: set<int>, m: Owners, r: seq<int>, g: int)
    requires Finished(shards, live, m, r) && g in live
    ensures |Fiber(Same(shards, r), r, g)| >= Min(|Own(shards, g)|, |Own(r, g)|)
  {
    var own := Own(shards, g);
    assert NoRepeat(m[g]) && Holds(shards, g, m[g]);
    OwnSize(r, g, m[g]);
    var common := if |m[g]| < |own| then m[g] else own;
    ElementsSize(common);
    forall i | i in common
      ensures i in Fiber(Same(shards, r), r, g)
    {
      assert i in m[g] && i in own;
    }
    SubsetSize(Elements(common), Fiber(Same(shards, r), r, g));
  }

  // ----- No balanced assignment keeps more -----

  lemma {:induction false} Lowest(order: seq<int>, s: map<int, int>) returns (g: int)
    requires order != [] && forall k {:trigger order[k]} :: 0 <= k < |order| ==> order[k] in s
    ensures g in order && g in s && forall k {:trigger order[k]} :: 0 <= k < |order| ==> s[g] <= s[order[k]]
  {
    var n := |order| - 1;
    g := order[n];
    if n > 0 {
      var h := Lowest(order[..n], s);
      assert forall k :: 0 <= k < n ==> order[..n][k] == order[k];
      if s[h] < s[g] { g := h; }
    }
  }

  ghost predicate WithinOne(order: seq<int>, s: map<int, int>, lo: int) {
    && (forall k {:trigger order[k]} :: 0 <= k < |order| ==> order[k] in s && lo <= s[order[k]] <= lo + 1)
    && exists k {:trigger order[k]} :: 0 <= k < |order| && s[order[k]] == lo
  }

  /** Balanced sizes with one total have one smallest size. */
  lemma SameLow(order: seq<int>, s: map<int, int>, lo: int, t: map<int, int>, hi: int)
    requires WithinOne(order, s, lo) && WithinOne(order, t, hi) && Total(order, s) == Total(order, t)
    ensures lo == hi
  {
    if lo < hi {
      TotalAtLeast(order, s, t);
    } else if hi < lo {
      TotalAtLeast(order, t, s);
    }
  }

  /** Sizes in which no group gave down to the lowest size while another took above it keep the most. */
  lemma BestOverlap(order: seq<int>, live: set<int>, o: map<int, int>, a: map<int, int>, b: map<int, int>, lo: int)
    requires Enumerates(order, live) && o.Keys == live && a.Keys == live && b.Keys == live
    requires WithinOne(order, a, lo) && WithinOne(order, b, lo) && Total(order, a) == Total(order, b)
    requires forall g, h {:trigger b[g], b[h]} :: g in live && h in live && b[g] == lo < o[g] && b[h] == lo + 1 ==>
      o[h] > lo
    ensures forall k {:trigger order[k]} :: 0 <= k < |order| ==> order[k] in live
    ensures Total(order, MinMap(live, o, a)) <= Total(order, MinMap(live, o, b))
  {
    InLive(order, live);
    if exists g :: g in live && b[g] == lo < o[g] {
      var g :| g in live && b[g] == lo < o[g];
      forall h | h in live && b[h] == lo + 1
        ensures o[h] > lo
      {
        assert b[g] == lo;
      }
      NoneTakesAbove(order, live, o, a, b, lo);
    } else {
      TotalAtLeast(order, MinMap(live, o, a), MinMap(live, o, b));
    }
  }

  lemma NoneTakesAbove(order: seq<int>, live: set<int>, o: map<int, int>, a: map<int, int>, b: map<int, int>, lo: int)
    requires o.Keys == live && a.Keys == live && b.Keys == live
    requires forall k {:trigger order[k]} :: 0 <= k < |order| ==> order[k] in live
    requires WithinOne(order, a, lo) && WithinOne(order, b, lo) && Total(order, a) == Total(order, b)
    requires forall h {:trigger b[h]} :: h in live && b[h] == lo + 1 ==> o[h] > lo
    ensures Total(order, MinMap(live, o, a)) <= Total(order, MinMap(live, o, b))
  {
    var c := map x | x in live :: Min(o[x], lo) - lo;
    var ac := map x | x in live :: a[x] + c[x];
    var bc := map x | x in live :: b[x] + c[x];
    TotalSum(order, a, c, ac);
    TotalSum(order, b, c, bc);
    forall k | 0 <= k < |order|
      ensures MinMap(live, o, a)[order[k]] <= ac[order[k]] && bc[order[k]] == MinMap(live, o, b)[order[k]]
    {
      var x := order[k];
      assert b[x] == lo + 1 ==> o[x] > lo;
    }
    hide Total, WithinOne, MinMap;
    TotalAtLeast(order, MinMap(live, o, a), ac);
    TotalSame(order, bc, MinMap(live, o, b));
  }

  lemma BalancedLow(order: seq<int>, live: set<int>, a: seq<int>) returns (lo: int)
    requires Enumerates(order, live) && live != {} && Balanced(a, live)
    ensures WithinOne(order, OwnSizes(live, a), lo)
  {
    InLive(order, live);
    OrderOk(order, a, live);
    var g := Lowest(order, OwnSizes(live, a));
    lo := OwnSizes(live, a)[g];
    forall k | 0 <= k < |order|
      ensures order[k] in OwnSizes(live, a) && lo <= OwnSizes(live, a)[order[k]] <= lo + 1
    {
      assert |Own(a, order[k])| <= |Own(a, g)| + 1;
    }
    var k :| 0 <= k < |order| && order[k] == g;
  }

  // ----- The theorems -----

  /** The finished lists are the groups' shards in the new assignment. */
  lemma FinishedOwn(shards: seq<int>, live: set<int>, m: Owners, r: seq<int>)
    requires Finished(shards, live, m, r)
    ensures forall g {:trigger m[g]} :: g in live ==> |Own(r, g)| == |m[g]|
  {
    forall g | g in live
      ensures |Own(r, g)| == |m[g]|
    {
      assert NoRepeat(m[g]);
      OwnSize(r, g, m[g]);
    }
  }

  /** With a live group, every shard goes to one and sizes differ by at most one; with none, all go to group 0. */
  lemma RebalanceBalances(shards: seq<int>, live: set<int>)
    requires 0 !in live
    ensures live != {} ==> Assigned(Rebalanced(shards, live), live) && Balanced(Rebalanced(shards, live), live)
    ensures live == {} ==> Rebalanced(shards, live) == Zeros(|shards|)
  {
    if live != {} {
      var r := Rebalanced(shards, live);
      var m := Finishes(shards, live);
      FinishedOwn(shards, live, m, r);
      hide Rebalanced;
      forall g, h | g in live && h in live
        ensures |Own(r, g)| <= |Own(r, h)| + 1
      {
        assert |m[g]| <= |m[h]| + 1;
      }
    }
  }

  /** No assignment of all shards to live groups with sizes within one moves fewer shards. */
  lemma FewestMoved(shards: seq<int>, live: set<int>, a: seq<int>)
    requires 0 !in live && live != {}
    requires |a| == |shards| && Assigned(a, live) && Balanced(a, live)
    ensures |Changed(shards, Rebalanced(shards, live))| <= |Changed(shards, a)|
  {
    var order, r := Ordered(live), Rebalanced(shards, live);
    var m := Finishes(shards, live);
    RebalanceBalances(shards, live);
    hide Rebalanced;
    SameAtMost(order, live, shards, a);
    SameAtLeast(order, live, shards, m, r);
    MostOverlap(order, live, shards, m, r, a);
    SameOrChanged(shards, a);
    SameOrChanged(shards, r);
  }

  lemma SameOrChanged(s: seq<int>, t: seq<int>)
    requires |s| == |t|
    ensures |Same(s, t)| + |Changed(s, t)| == |s|
  {
    assert Indexes(|s|) == Same(s, t) + Changed(s, t);
  }

  lemma NoneCrosses(shards: seq<int>, live: set<int>, m: Owners, r: seq<int>, lo: int)
    requires Finished(shards, live, m, r)
    ensures var o, b := OwnSizes(live, shards), OwnSizes(live, r);
      forall g, h {:trigger b[g], b[h]} :: g in live && h in live && b[g] == lo < o[g] && b[h] == lo + 1 ==> o[h] > lo
  {
    FinishedOwn(shards, live, m, r);
    var o, b := OwnSizes(live, shards), OwnSizes(live, r);
    forall g, h | g in live && h in live && b[g] == lo < o[g] && b[h] == lo + 1
      ensures o[h] > lo
    {
      assert |m[g]| == lo && |m[h]| == lo + 1;
      assert Donor(shards, m, g) && !Receiver(shards, m, h);
    }
  }

  lemma MostOverlap(order: seq<int>, live: set<int>, shards: seq<int>, m: Owners, r: seq<int>, a: seq<int>)
    requires live != {} && Enumerates(order, live) && Finished(shards, live, m, r) && Balanced(r, live)
    requires |a| == |shards| && Assigned(a, live) && Balanced(a, live)
    ensures forall k {:trigger order[k]} :: 0 <= k < |order| ==> order[k] in live
    ensures Total(order, Overlap(live, shards, a)) <= Total(order, Overlap(live, shards, r))
  {
    var o, sa, sr := OwnSizes(live, shards), OwnSizes(live, a), OwnSizes(live, r);
    assert |r| == |shards| && Assigned(r, live);
    hide Finished, Balanced, Assigned, OwnSizes, WithinOne, Enumerates, Total, MinMap;
    OwnTotal(order, live, a);
    OwnTotal(order, live, r);
    var lo := BalancedLow(order, live, a);
    var lr := BalancedLow(order, live, r);
    SameLow(order, sa, lo, sr, lr);
    NoneCrosses(shards, live, m, r, lo);
    BestOverlap(order, live, o, sa, sr, lo);
  }

  /** No group both gives a shard away and takes one. */
  lemma NoGiveAndTake(shards: seq<int>, live: set<int>, g: int, i: nat, j: nat)
    requires 0 !in live && g in live && i < |shards| && j < |shards|
    requires shards[i] == g && Rebalanced(shards, live)[i] != g
    ensures Rebalanced(shards, live)[j] == g ==> shards[j] == g
  {
    var r := Rebalanced(shards, live);
    var m := Finishes(shards, live);
    hide Rebalanced;
    var own := Own(shards, g);
    assert Holds(shards, g, m[g]);
    assert i in own && i !in m[g];
    if r[j] == g {
      assert j in m[g];
    }
  }
}
