/** Spreading shards over replica groups: fill with free shards, then move from the fullest to the emptiest. */
module Rebalance {

  type Owners = map<int, seq<nat>>

  // ----- The greedy algorithm -----

  /** The shards of a group, in increasing order. */
  function Own(shards: seq<int>, gid: int): (s: seq<nat>)
    ensures forall x {:trigger s[x]} :: 0 <= x < |s| ==> s[x] < |shards| && shards[s[x]] == gid
    ensures forall x, y {:trigger s[x], s[y]} :: 0 <= x < y < |s| ==> s[x] < s[y]
    ensures forall i {:trigger i in s} :: 0 <= i < |shards| && shards[i] == gid ==> i in s
  {
    if shards == [] then []
    else
      var n := |shards| - 1;
      Own(shards[..n], gid) + (if shards[n] == gid then [n] else [])
  }

  function Owned(shards: seq<int>, live: set<int>): (m: Owners)
    ensures m.Keys == live
  {
    map g | g in live :: Own(shards, g)
  }

  predicate IsFree(gid: int, live: set<int>) {
    gid == 0 || gid !in live
  }

  /** The shards without a live group, in increasing order. */
  function Free(shards: seq<int>, live: set<int>): (s: seq<nat>)
    ensures forall x {:trigger s[x]} :: 0 <= x < |s| ==> s[x] < |shards| && IsFree(shards[s[x]], live)
    ensures forall x, y {:trigger s[x], s[y]} :: 0 <= x < y < |s| ==> s[x] < s[y]
    ensures forall i {:trigger i in s} :: 0 <= i < |shards| && IsFree(shards[i], live) ==> i in s
  {
    if shards == [] then []
    else
      var n := |shards| - 1;
      Free(shards[..n], live) + (if IsFree(shards[n], live) then [n] else [])
  }

  predicate Covers(order: seq<int>, m: Owners) {
    forall k {:trigger order[k]} :: 0 <= k < |order| ==> order[k] in m
  }

  /** The first of the fullest groups. */
  function Fullest(order: seq<int>, m: Owners): (g: int)
    requires order != [] && Covers(order, m)
    ensures g in order && forall k {:trigger order[k]} :: 0 <= k < |order| ==> |m[order[k]]| <= |m[g]|
  {
    var last := order[|order| - 1];
    if |order| == 1 then last
    else
      var rest := order[..|order| - 1];
      var g := Fullest(rest, m);
      assert forall k :: 0 <= k < |rest| ==> rest[k] == order[k];
      if |m[last]| > |m[g]| then last else g
  }

  /** The first of the emptiest groups. */
  function Emptiest(order: seq<int>, m: Owners): (g: int)
    requires order != [] && Covers(order, m)
    ensures g in order && forall k {:trigger order[k]} :: 0 <= k < |order| ==> |m[g]| <= |m[order[k]]|
  {
    var last := order[|order| - 1];
    if |order| == 1 then last
    else
      var rest := order[..|order| - 1];
      var g := Emptiest(rest, m);
      assert forall k :: 0 <= k < |rest| ==> rest[k] == order[k];
      if |m[last]| < |m[g]| then last else g
  }

  /** Of several fullest or emptiest groups it is the first in order, so that all replicas choose the same. */
  lemma {:induction false} FirstExtremes(order: seq<int>, m: Owners) returns (d: nat, e: nat)
    requires order != [] && Covers(order, m)
    ensures d < |order| && order[d] == Fullest(order, m)
    ensures forall k {:trigger order[k]} :: 0 <= k < d ==> |m[order[k]]| < |m[order[d]]|
    ensures e < |order| && order[e] == Emptiest(order, m)
    ensures forall k {:trigger order[k]} :: 0 <= k < e ==> |m[order[k]]| > |m[order[e]]|
  {
    var n := |order| - 1;
    d, e := n, n;
    if n > 0 {
      var rest := order[..n];
      assert forall k :: 0 <= k < |rest| ==> rest[k] == order[k];
      var d1, e1 := FirstExtremes(rest, m);
      if Fullest(order, m) == rest[d1] { d := d1; }
      if Emptiest(order, m) == rest[e1] { e := e1; }
    }
  }

  /** Gives each free shard to the emptiest group. */
  function Fill(order: seq<int>, m: Owners, free: seq<nat>): (r: Owners)
    requires order != [] && Covers(order, m)
    ensures r.Keys == m.Keys
    decreases |free|
  {
    if free == [] then m
    else
      var g := Emptiest(order, m);
      Fill(order, m[g := m[g] + [free[0]]], free[1..])
  }

  /** Moves the last shard of one group to another. */
  function Shift(m: Owners, d: int, e: int): (r: Owners)
    requires d in m && e in m && |m[d]| > 0
    ensures r.Keys == m.Keys
  {
    var n := |m[d]| - 1;
    var m2 := m[d := m[d][..n]];
    m2[e := m2[e] + [m[d][n]]]
  }

  /** Moves a shard from the fullest group to the emptiest while they differ by more than one. */
  function Even(order: seq<int>, m: Owners): (r: Owners)
    requires order != [] && Covers(order, m) && Distinct(order)
    ensures r.Keys == m.Keys
    decreases Squares(order, m)
  {
    var d, e := Fullest(order, m), Emptiest(order, m);
    if |m[d]| - |m[e]| <= 1 then m
    else
      ShiftShrinks(order, m, d, e);
      Even(order, Shift(m, d, e))
  }

  /** Writes a group into the slots of its shards. */
  function Write(slots: seq<int>, s: seq<nat>, gid: int): (r: seq<int>)
    ensures |r| == |slots|
    ensures forall i {:trigger r[i]} :: 0 <= i < |r| ==> r[i] == if i in s then gid else slots[i]
    decreases |s|
  {
    if s == [] then slots
    else
      var n := |s| - 1;
      var r := Write(slots, s[..n], gid);
      assert s == s[..n] + [s[n]];
      if s[n] < |r| then r[s[n] := gid] else r
  }

  function WriteAll(order: seq<int>, m: Owners, slots: seq<int>): (r: seq<int>)
    requires Covers(order, m)
    ensures |r| == |slots|
  {
    if order == [] then slots
    else
      var n := |order| - 1;
      Write(WriteAll(order[..n], m, slots), m[order[n]], order[n])
  }

  function Zeros(n: nat): seq<int> {
    seq(n, i => 0)
  }

  // ----- Sums over the groups, and termination -----

  predicate Distinct(order: seq<int>) {
    forall x, y {:trigger order[x], order[y]} :: 0 <= x < y < |order| ==> order[x] != order[y]
  }

  ghost function Total(order: seq<int>, s: map<int, int>): int
    requires forall k {:trigger order[k]} :: 0 <= k < |order| ==> order[k] in s
  {
    if order == [] then 0 else Total(order[..|order| - 1], s) + s[order[|order| - 1]]
  }

  lemma {:induction false} TotalChange(order: seq<int>, s: map<int, int>, g: int, v: int)
    requires Distinct(order) && g in s && forall k {:trigger order[k]} :: 0 <= k < |order| ==> order[k] in s
    ensures Total(order, s[g := v]) == Total(order, s) + (if g in order then v - s[g] else 0)
  {
    if order != [] {
      var n := |order| - 1;
      TotalChange(order[..n], s, g, v);
      assert order == order[..n] + [order[n]];
      assert order[n] !in order[..n];
    }
  }

  lemma {:induction false} TotalAtLeast(order: seq<int>, s: map<int, int>, t: map<int, int>)
    requires forall k {:trigger order[k]} :: 0 <= k < |order| ==>
      order[k] in s && order[k] in t && s[order[k]] <= t[order[k]]
    ensures Total(order, s) <= Total(order, t)
    ensures (exists k {:trigger order[k]} :: 0 <= k < |order| && s[order[k]] < t[order[k]]) ==>
      Total(order, s) < Total(order, t)
  {
    if order != [] {
      var n := |order| - 1;
      TotalAtLeast(order[..n], s, t);
      assert forall k :: 0 <= k < n ==> order[..n][k] == order[k];
    }
  }

  ghost function SizesSquared(m: Owners): map<int, int> {
    map g | g in m :: |m[g]| * |m[g]|
  }

  ghost function Squares(order: seq<int>, m: Owners): nat
    requires Covers(order, m)
  {
    SquaresNat(order, m);
    Total(order, SizesSquared(m))
  }

  lemma {:induction false} SquaresNat(order: seq<int>, m: Owners)
    requires Covers(order, m)
    ensures Total(order, SizesSquared(m)) >= 0
  {
    if order != [] {
      SquaresNat(order[..|order| - 1], m);
      SquareNat(|m[order[|order| - 1]]|);
    }
  }

  lemma SquareNat(x: int)
    ensures x * x >= 0
  {
  }

  lemma SquaresMove(a: int, b: int)
    requires a - b >= 2
    ensures (a - 1) * (a - 1) + (b + 1) * (b + 1) < a * a + b * b
  {
    assert (a - 1) * (a - 1) == a * a - 2 * a + 1;
    assert (b + 1) * (b + 1) == b * b + 2 * b + 1;
  }

  /** Each move lowers the sum of the squared sizes. */
  lemma ShiftShrinks(order: seq<int>, m: Owners, d: int, e: int)
    requires Covers(order, m) && Distinct(order) && d in order && e in order && |m[d]| - |m[e]| >= 2
    ensures Squares(order, Shift(m, d, e)) < Squares(order, m)
  {
    var a, b := |m[d]|, |m[e]|;
    var s := SizesSquared(m);
    var sd := s[d := (a - 1) * (a - 1)];
    TotalChange(order, s, d, (a - 1) * (a - 1));
    TotalChange(order, sd, e, (b + 1) * (b + 1));
    assert SizesSquared(Shift(m, d, e)) == sd[e := (b + 1) * (b + 1)];
    SquaresMove(a, b);
  }

  // ----- What the loop keeps -----

  /** Where each shard is: in exactly the list of its group, or still among the free ones. */
  ghost predicate Placed(n: nat, m: Owners, at: map<nat, int>, free: seq<nat>) {
    && (forall g, x {:trigger m[g][x]} :: g in m && 0 <= x < |m[g]| ==> m[g][x] in at && at[m[g][x]] == g)
    && (forall g {:trigger NoRepeat(m[g])} :: g in m ==> NoRepeat(m[g]))
    && (forall i {:trigger at[i]} :: i in at ==> i < n && at[i] in m && i in m[at[i]] && i !in free)
    && (forall i: nat {:trigger i in at} :: i < n ==> i in at || i in free)
    && (forall i {:trigger i in free} :: i in free ==> i < n)
    && NoRepeat(free)
  }

  ghost predicate NoRepeat(s: seq<nat>) {
    forall x, y {:trigger s[x], s[y]} :: 0 <= x < y < |s| ==> s[x] != s[y]
  }

  /** A group has given shards away. */
  ghost predicate Donor(shards: seq<int>, m: Owners, g: int)
    requires g in m
  {
    |m[g]| < |Own(shards, g)|
  }

  /** A group has taken shards. */
  ghost predicate Receiver(shards: seq<int>, m: Owners, g: int)
    requires g in m
  {
    |Own(shards, g)| < |m[g]|
  }

  /** A donor holds the first of its own shards; any other group holds all of its own first. */
  ghost predicate Holds(shards: seq<int>, g: int, s: seq<nat>) {
    if |s| < |Own(shards, g)| then s <= Own(shards, g) else Own(shards, g) <= s
  }

  ghost predicate Comparable(shards: seq<int>, m: Owners) {
    forall g {:trigger Holds(shards, g, m[g])} :: g in m ==> Holds(shards, g, m[g])
  }

  lemma HoldsMore(shards: seq<int>, g: int, s: seq<nat>, x: nat)
    requires Holds(shards, g, s) && |s| >= |Own(shards, g)|
    ensures Holds(shards, g, s + [x])
  {
  }

  lemma HoldsLess(shards: seq<int>, g: int, s: seq<nat>)
    requires Holds(shards, g, s) && 0 < |s| <= |Own(shards, g)|
    ensures Holds(shards, g, s[..|s| - 1])
  {
  }

  /** Receivers are at most one above any group, donors at most one below, and no receiver is above a donor. */
  ghost predicate Tame(shards: seq<int>, m: Owners) {
    forall g, h {:trigger m[g], m[h]} :: g in m && h in m ==>
      && (Receiver(shards, m, g) ==> |m[g]| <= |m[h]| + 1)
      && (Donor(shards, m, g) ==> |m[h]| <= |m[g]| + 1)
      && (Donor(shards, m, g) && Receiver(shards, m, h) ==> |m[h]| <= |m[g]|)
  }

  ghost predicate NoDonors(shards: seq<int>, m: Owners) {
    forall g {:trigger m[g]} :: g in m ==> !Donor(shards, m, g)
  }

  /** The order lists exactly the groups. */
  ghost predicate Lists(order: seq<int>, m: Owners)
    ensures Lists(order, m) ==> Distinct(order) && Covers(order, m)
  {
    Distinct(order) && Covers(order, m) && forall g {:trigger m[g]} :: g in m ==> g in order
  }

  lemma Extremes(order: seq<int>, m: Owners)
    requires order != [] && Lists(order, m)
    ensures Fullest(order, m) in m && Emptiest(order, m) in m
    ensures forall g {:trigger m[g]} :: g in m ==> |m[Emptiest(order, m)]| <= |m[g]| <= |m[Fullest(order, m)]|
  {
    forall g | g in m
      ensures |m[Emptiest(order, m)]| <= |m[g]| <= |m[Fullest(order, m)]|
    {
      assert g in order;
      var k :| 0 <= k < |order| && order[k] == g;
    }
    var k :| 0 <= k < |order| && order[k] == Fullest(order, m);
    var j :| 0 <= j < |order| && order[j] == Emptiest(order, m);
  }

  ghost predicate Kept(shards: seq<int>, m: Owners, at: map<nat, int>, free: seq<nat>) {
    Placed(|shards|, m, at, free) && Comparable(shards, m) && Tame(shards, m)
  }

  lemma FillStep(shards: seq<int>, order: seq<int>, m: Owners, at: map<nat, int>, free: seq<nat>)
    requires order != [] && Lists(order, m) && free != [] && Kept(shards, m, at, free) && NoDonors(shards, m)
    ensures var g := Emptiest(order, m); var m2 := m[g := m[g] + [free[0]]];
      Kept(shards, m2, at[free[0] := g], free[1..]) && NoDonors(shards, m2) && Lists(order, m2)
  {
    Extremes(order, m);
    var g := Emptiest(order, m);
    var m2 := m[g := m[g] + [free[0]]];
    Give(|shards|, m, at, free, g);
    assert !Donor(shards, m, g) && Holds(shards, g, m[g]);
    HoldsMore(shards, g, m[g], free[0]);
    hide Placed, Holds, Own;
    FillTame(shards, m, g, m[g] + [free[0]]);
    forall h | h in m2
      ensures Holds(shards, h, m2[h])
    {
      assert h != g ==> Holds(shards, h, m[h]);
    }
  }

  lemma FillTame(shards: seq<int>, m: Owners, g: int, t: seq<nat>)
    requires Tame(shards, m) && NoDonors(shards, m) && g in m && |t| == |m[g]| + 1
    requires forall h {:trigger m[h]} :: h in m ==> |m[g]| <= |m[h]|
    ensures Tame(shards, m[g := t]) && NoDonors(shards, m[g := t])
  {
    hide Own;
    var m2 := m[g := t];
    forall a, b | a in m2 && b in m2
      ensures !Donor(shards, m2, a) && (Receiver(shards, m2, a) ==> |m2[a]| <= |m2[b]| + 1)
    {
      assert !Donor(shards, m, a) && |m[g]| <= |m[b]|;
      assert Receiver(shards, m, a) ==> |m[a]| <= |m[b]| + 1;
    }
  }

  /** Taking from the fullest and giving to the emptiest, two or more apart, keeps the sizes tame. */
  lemma MoveTame(shards: seq<int>, m: Owners, d: int, s: seq<nat>, e: int, t: seq<nat>)
    requires Tame(shards, m) && d in m && e in m && |m[d]| - |m[e]| >= 2 && |s| == |m[d]| - 1 && |t| == |m[e]| + 1
    requires forall h {:trigger m[h]} :: h in m ==> |m[e]| <= |m[h]| <= |m[d]|
    ensures !Receiver(shards, m, d) && !Donor(shards, m, e)
    ensures Tame(shards, m[d := s][e := t])
  {
    hide Own;
    var m2 := m[d := s][e := t];
    var lo, hi := |m[e]|, |m[d]|;
    forall g | g in m
      ensures Receiver(shards, m2, g) ==> |m2[g]| <= lo + 1
      ensures Donor(shards, m2, g) ==> |m2[g]| >= hi - 1
      ensures lo <= |m2[g]| <= hi
    {
      assert Receiver(shards, m, g) ==> |m[g]| <= |m[e]| + 1;
      assert Donor(shards, m, g) ==> |m[d]| <= |m[g]| + 1;
    }
  }

  lemma Give(n: nat, m: Owners, at: map<nat, int>, free: seq<nat>, g: int)
    requires Placed(n, m, at, free) && free != [] && g in m
    ensures Placed(n, m[g := m[g] + [free[0]]], at[free[0] := g], free[1..])
  {
    var x, m2, at2, rest := free[0], m[g := m[g] + [free[0]]], at[free[0] := g], free[1..];
    assert free == [x] + rest;
    assert x in free && x !in rest;
    assert NoRepeat(m[g]) && x !in m[g];
    assert NoRepeat(m2[g]);
    forall i | i in at2
      ensures i < n && at2[i] in m2 && i in m2[at2[i]] && i !in rest
    {
      if i == x {
        assert x in m2[g];
      } else {
        assert at[i] == at2[i];
      }
    }
    forall h | h in m2
      ensures NoRepeat(m2[h])
    {
      assert NoRepeat(m[h]);
    }
    forall i: nat | i < n
      ensures i in at2 || i in rest
    {
      assert i in at || i in free;
    }
    forall i | i in rest
      ensures i < n
    {
      assert i in free;
    }
  }

  lemma ShiftKeeps(shards: seq<int>, m: Owners, at: map<nat, int>, d: int, e: int)
    requires Kept(shards, m, at, []) && d in m && e in m && |m[d]| - |m[e]| >= 2
    requires forall h {:trigger m[h]} :: h in m ==> |m[e]| <= |m[h]| <= |m[d]|
    ensures Kept(shards, Shift(m, d, e), at[m[d][|m[d]| - 1] := e], [])
  {
    hide Placed, Holds, Own, Comparable;
    var m2 := Shift(m, d, e);
    assert m2 == m[d := m2[d]][e := m2[e]];
    Transfer(|shards|, m, at, d, e);
    MoveTame(shards, m, d, m2[d], e, m2[e]);
    ShiftHolds(shards, m, d, e);
  }

  lemma ShiftHolds(shards: seq<int>, m: Owners, d: int, e: int)
    requires Comparable(shards, m) && d in m && e in m && d != e && |m[d]| > 0
    requires !Receiver(shards, m, d) && !Donor(shards, m, e)
    ensures Comparable(shards, Shift(m, d, e))
  {
    var m2 := Shift(m, d, e);
    assert Holds(shards, d, m[d]) && Holds(shards, e, m[e]);
    HoldsLess(shards, d, m[d]);
    HoldsMore(shards, e, m[e], m[d][|m[d]| - 1]);
    hide Holds;
    forall h | h in m2
      ensures Holds(shards, h, m2[h])
    {
      assert h != d && h != e ==> Holds(shards, h, m[h]);
    }
  }

  lemma Transfer(n: nat, m: Owners, at: map<nat, int>, d: int, e: int)
    requires Placed(n, m, at, []) && d in m && e in m && d != e && |m[d]| > 0
    ensures var k := |m[d]| - 1; Placed(n, m[d := m[d][..k]][e := m[e] + [m[d][k]]], at[m[d][k] := e], [])
  {
    var k := |m[d]| - 1;
    var x := m[d][k];
    var m2, at2 := m[d := m[d][..k]][e := m[e] + [x]], at[x := e];
    assert NoRepeat(m[d]) && NoRepeat(m[e]);
    assert x !in m[e] && x !in m[d][..k];
    assert m[d] == m[d][..k] + [x];
    assert NoRepeat(m2[d]) && NoRepeat(m2[e]);
    forall i | i in at2
      ensures i < n && at2[i] in m2 && i in m2[at2[i]]
    {
      if i == x {
        assert at[x] == d && x in m2[e];
      } else {
        assert at[i] == at2[i];
      }
    }
    forall h | h in m2
      ensures NoRepeat(m2[h])
    {
      assert NoRepeat(m[h]);
    }
    forall i: nat | i < n
      ensures i in at2
    {
      assert i in at || i in [];
    }
  }

  lemma {:induction false} FillKeeps(shards: seq<int>, order: seq<int>, m: Owners, at: map<nat, int>, free: seq<nat>)
    returns (at2: map<nat, int>)
    requires order != [] && Lists(order, m) && Kept(shards, m, at, free) && NoDonors(shards, m)
    ensures Kept(shards, Fill(order, m, free), at2, []) && Lists(order, Fill(order, m, free))
    decreases |free|
  {
    if free == [] {
      at2 := at;
    } else {
      FillStep(shards, order, m, at, free);
      hide Kept, NoDonors, Lists;
      var g := Emptiest(order, m);
      at2 := FillKeeps(shards, order, m[g := m[g] + [free[0]]], at[free[0] := g], free[1..]);
    }
  }

  lemma {:induction false} EvenKeeps(shards: seq<int>, order: seq<int>, m: Owners, at: map<nat, int>)
    returns (at2: map<nat, int>)
    requires order != [] && Lists(order, m) && Kept(shards, m, at, [])
    ensures Kept(shards, Even(order, m), at2, []) && Lists(order, Even(order, m))
    ensures var r := Even(order, m); forall g, h {:trigger r[g], r[h]} :: g in r && h in r ==> |r[g]| <= |r[h]| + 1
    decreases Squares(order, m)
  {
    hide Kept, Squares, Fullest, Emptiest;
    var d, e := Fullest(order, m), Emptiest(order, m);
    Extremes(order, m);
    if |m[d]| - |m[e]| <= 1 {
      at2 := at;
    } else {
      ShiftKeeps(shards, m, at, d, e);
      ShiftShrinks(order, m, d, e);
      at2 := EvenKeeps(shards, order, Shift(m, d, e), at[m[d][|m[d]| - 1] := e]);
    }
  }

  // ----- The result -----

  ghost predicate Ascending(order: seq<int>) {
    forall x, y {:trigger order[x], order[y]} :: 0 <= x < y < |order| ==> order[x] < order[y]
  }

  ghost predicate Enumerates(order: seq<int>, live: set<int>) {
    Ascending(order) && forall g {:trigger g in live} {:trigger g in order} :: g in live <==> g in order
  }

  /** The groups in increasing order: there is exactly one such list. */
  ghost function Ordered(live: set<int>): (order: seq<int>)
    ensures Enumerates(order, live)
  {
    OrderExists(live);
    var order :| Enumerates(order, live);
    order
  }

  lemma {:induction false} OrderExists(live: set<int>)
    ensures exists order :: Enumerates(order, live)
  {
    if live == {} {
      assert Enumerates([], live);
    } else {
      var top := Largest(live);
      OrderExists(live - {top});
      var order :| Enumerates(order, live - {top});
      assert forall k :: 0 <= k < |order| ==> order[k] in order;
      assert Enumerates(order + [top], live);
    }
  }

  lemma Member(live: set<int>) returns (g: int)
    requires live != {}
    ensures g in live
  {
    if forall y :: y !in live { assert false; }
    g :| g in live;
  }

  lemma {:induction false} Largest(live: set<int>) returns (top: int)
    requires live != {}
    ensures top in live && forall g {:trigger g in live} :: g in live ==> g <= top
  {
    var y := Member(live);
    if live == {y} {
      top := y;
    } else {
      assert live == (live - {y}) + {y};
      var t := Largest(live - {y});
      top := if t > y then t else y;
    }
  }

  lemma {:induction false} OrderUnique(s: seq<int>, t: seq<int>, live: set<int>)
    requires Enumerates(s, live) && Enumerates(t, live)
    ensures s == t
    decreases |s|
  {
    if s == [] {
      if t != [] { LastIsLargest(t, s, live); }
    } else {
      LastIsLargest(s, t, live);
      var top, s1, t1 := s[|s| - 1], s[..|s| - 1], t[..|t| - 1];
      assert s == s1 + [top] && t == t1 + [top];
      OrderUnique(s1, t1, live - {top});
    }
  }

  lemma LastIsLargest(s: seq<int>, t: seq<int>, live: set<int>)
    requires Enumerates(s, live) && Enumerates(t, live) && s != []
    ensures t != [] && s[|s| - 1] == t[|t| - 1]
  {
    var a := s[|s| - 1];
    assert a in s && a in live && a in t;
    var b := t[|t| - 1];
    assert b in t && b in live && b in s;
  }

  /** The new assignment: every shard to group 0 when no group is live. */
  ghost function Rebalanced(shards: seq<int>, live: set<int>): (r: seq<int>)
    ensures |r| == |shards|
  {
    if live == {} then Zeros(|shards|)
    else
      var order := Ordered(live);
      OrderOk(order, shards, live);
      WriteAll(order, Settled(order, Owned(shards, live), Free(shards, live)), Zeros(|shards|))
  }

  ghost function Settled(order: seq<int>, m: Owners, free: seq<nat>): (r: Owners)
    requires order != [] && Covers(order, m) && Distinct(order)
    ensures r.Keys == m.Keys
  {
    Even(order, Fill(order, m, free))
  }

  lemma OrderOk(order: seq<int>, shards: seq<int>, live: set<int>)
    requires Enumerates(order, live) && live != {}
    ensures order != [] && Lists(order, Owned(shards, live))
  {
    var g := Member(live);
    assert g in order;
    forall k | 0 <= k < |order| ensures order[k] in live { assert order[k] in order; }
  }

  ghost predicate Assigned(a: seq<int>, live: set<int>) {
    forall i {:trigger a[i]} :: 0 <= i < |a| ==> a[i] in live
  }

  /** No group has more than one shard more than another. */
  ghost predicate Balanced(a: seq<int>, live: set<int>) {
    forall g, h {:trigger Own(a, g), Own(a, h)} :: g in live && h in live ==> |Own(a, g)| <= |Own(a, h)| + 1
  }

  /** The shards that stay where they are. */
  ghost function Same(a: seq<int>, b: seq<int>): set<nat>
    requires |a| == |b|
  {
    set i: nat | i < |a| && a[i] == b[i]
  }

  ghost function Changed(a: seq<int>, b: seq<int>): set<nat>
    requires |a| == |b|
  {
    set i: nat | i < |a| && a[i] != b[i]
  }

  /** How the finished lists and the new assignment fit together. */
  ghost predicate Finished(shards: seq<int>, live: set<int>, m: Owners, r: seq<int>) {
    && |r| == |shards| && Assigned(r, live) && m.Keys == live && Comparable(shards, m) && Tame(shards, m)
    && (forall g {:trigger m[g]} :: g in m ==> NoRepeat(m[g]))
    && (forall g, i {:trigger i in m[g]} :: g in m ==> (i in m[g] <==> 0 <= i < |r| && r[i] == g))
    && (forall g, h {:trigger m[g], m[h]} :: g in m && h in m ==> |m[g]| <= |m[h]| + 1)
  }

  lemma StartPlaced(shards: seq<int>, live: set<int>) returns (at: map<nat, int>)
    requires 0 !in live
    ensures Kept(shards, Owned(shards, live), at, Free(shards, live)) && NoDonors(shards, Owned(shards, live))
  {
    at := map i: nat | i < |shards| && !IsFree(shards[i], live) :: shards[i];
    var free := Free(shards, live);
    forall i: nat | i < |shards|
      ensures i in at || i in free
    {
    }
    forall i | i in at
      ensures i !in free
    {
    }
  }

  lemma {:induction false} WriteAllAt(order: seq<int>, m: Owners, slots: seq<int>, n: nat, at: map<nat, int>, i: nat)
    requires Placed(n, m, at, []) && Covers(order, m) && |slots| == n && i < n
    ensures i in at && (at[i] in order ==> WriteAll(order, m, slots)[i] == at[i])
  {
    assert i in at || i in [];
    if order != [] {
      var k := |order| - 1;
      assert order == order[..k] + [order[k]];
      WriteAllAt(order[..k], m, slots, n, at, i);
      if i in m[order[k]] {
        var x :| 0 <= x < |m[order[k]]| && m[order[k]][x] == i;
      }
    }
  }

  lemma Written(n: nat, order: seq<int>, m: Owners, at: map<nat, int>)
    requires Placed(n, m, at, []) && Lists(order, m)
    ensures forall i: nat {:trigger at[i]} {:trigger WriteAll(order, m, Zeros(n))[i]} :: i < n ==>
      i in at && WriteAll(order, m, Zeros(n))[i] == at[i] && at[i] in m
  {
    forall i: nat | i < n
      ensures i in at && WriteAll(order, m, Zeros(n))[i] == at[i] && at[i] in m
    {
      WriteAllAt(order, m, Zeros(n), n, at, i);
      assert at[i] in m && |m[at[i]]| >= 0;
    }
  }

  /** Every run of the algorithm ends well. */
  lemma FinishedLists(shards: seq<int>, live: set<int>, order: seq<int>) returns (m: Owners, at: map<nat, int>)
    requires 0 !in live && live != {} && Enumerates(order, live)
    ensures order != [] && Lists(order, Owned(shards, live)) && Lists(order, m) && m.Keys == live
      && Kept(shards, m, at, [])
    ensures m == Settled(order, Owned(shards, live), Free(shards, live))
    ensures forall g, h {:trigger m[g], m[h]} :: g in m && h in m ==> |m[g]| <= |m[h]| + 1
  {
    hide Kept, Lists, NoDonors, Owned, Free, Fill, Even, Enumerates;
    var m0, free := Owned(shards, live), Free(shards, live);
    OrderOk(order, shards, live);
    at := StartPlaced(shards, live);
    at := FillKeeps(shards, order, m0, at, free);
    m := Fill(order, m0, free);
    at := EvenKeeps(shards, order, m, at);
    m := Even(order, m);
  }

  lemma Finishes(shards: seq<int>, live: set<int>) returns (m: Owners)
    requires 0 !in live && live != {}
    ensures Finished(shards, live, m, Rebalanced(shards, live))
  {
    var order, at := Ordered(live), map[];
    m, at := FinishedLists(shards, live, order);
    hide Kept, Enumerates, Settled, Finished;
    FinishedAt(shards, live, order, m, at);
  }

  lemma FinishedAt(shards: seq<int>, live: set<int>, order: seq<int>, m: Owners, at: map<nat, int>)
    requires Kept(shards, m, at, []) && Lists(order, m) && m.Keys == live
    requires forall g, h {:trigger m[g], m[h]} :: g in m && h in m ==> |m[g]| <= |m[h]| + 1
    ensures Finished(shards, live, m, WriteAll(order, m, Zeros(|shards|)))
  {
    Written(|shards|, order, m, at);
    FinishedFrom(shards, live, m, at, WriteAll(order, m, Zeros(|shards|)));
  }

  /** An assignment that puts every shard where the lists have it. */
  lemma FinishedFrom(shards: seq<int>, live: set<int>, m: Owners, at: map<nat, int>, r: seq<int>)
    requires Kept(shards, m, at, []) && m.Keys == live && |r| == |shards|
    requires forall i: nat {:trigger at[i]} {:trigger r[i]} :: i < |r| ==> i in at && r[i] == at[i] && at[i] in m
    requires forall g, h {:trigger m[g], m[h]} :: g in m && h in m ==> |m[g]| <= |m[h]| + 1
    ensures Finished(shards, live, m, r)
  {
    hide Comparable, Tame;
    forall g, i | g in m
      ensures i in m[g] <==> 0 <= i < |r| && r[i] == g
    {
      if i in m[g] {
        var x :| 0 <= x < |m[g]| && m[g][x] == i;
        assert m[g][x] in at;
      }
    }
    forall g | g in m ensures NoRepeat(m[g]) {}
  }
}
