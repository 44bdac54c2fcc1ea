/** The timeline of calls and returns, and the doubly linked list the checker lifts operations out of. */
module EntryList {
  import opened Linearizability

  datatype Entry<I, O> = Call(id: nat, input: I, time: int) | Return(id: nat, output: O, time: int)

  // ----- Timelines -----

  /** Where the call (or the return) of an operation first occurs; the length if it does not. */
  function Find<I, O>(es: seq<Entry<I, O>>, id: nat, ret: bool): (p: nat)
    ensures p <= |es|
    ensures p < |es| ==> es[p].id == id && es[p].Return? == ret
    ensures forall k :: 0 <= k < p ==> !(es[k].id == id && es[k].Return? == ret)
  {
    if es == [] then 0
    else if es[0].id == id && es[0].Return? == ret then 0
    else
      var q := Find(es[1..], id, ret);
      assert forall k :: 0 < k < |es| ==> es[k] == es[1..][k - 1];
      1 + q
  }

  /** Each of the operations 0 to n-1 is called once and returns once, in that order. */
  ghost predicate WellFormed<I, O>(es: seq<Entry<I, O>>) {
    && |es| % 2 == 0
    && (forall p {:trigger es[p]} :: 0 <= p < |es| ==> es[p].id < |es| / 2)
    && (forall p, q {:trigger es[p], es[q]} :: 0 <= p < q < |es| && es[p].id == es[q].id ==>
      es[p].Call? && es[q].Return?)
    && (forall id: nat {:trigger Find(es, id, false)} {:trigger Find(es, id, true)} ::
          id < |es| / 2 ==> Find(es, id, false) < |es| && Find(es, id, true) < |es|)
  }

  lemma FindIs<I, O>(es: seq<Entry<I, O>>, p: nat)
    requires WellFormed(es) && p < |es|
    ensures Find(es, es[p].id, es[p].Return?) == p
  {
    var q := Find(es, es[p].id, es[p].Return?);
    assert q <= p;
    assert es[q].id == es[p].id;
  }

  lemma CallBeforeReturn<I, O>(es: seq<Entry<I, O>>, id: nat)
    requires WellFormed(es) && id < |es| / 2
    ensures Find(es, id, false) < Find(es, id, true) < |es|
  {
    var c, r := Find(es, id, false), Find(es, id, true);
    assert es[c].id == es[r].id;
  }

  /** The search problem a timeline poses. */
  ghost function ProblemOf<I, O>(es: seq<Entry<I, O>>): Problem<I, O>
    requires WellFormed(es)
  {
    var n := |es| / 2;
    Problem(
      seq(n, id requires 0 <= id < n => es[Find(es, id, false)].input),
      seq(n, id requires 0 <= id < n => es[Find(es, id, true)].output),
      set a, b | a in Ids(n) && b in Ids(n) && Find(es, a, true) < Find(es, b, false) :: (a, b))
  }

  lemma ProblemPosed<I, O>(es: seq<Entry<I, O>>)
    requires WellFormed(es)
    ensures WellPosed(ProblemOf(es)) && |ProblemOf(es).inputs| == |es| / 2
  {
    forall a, b | (a, b) in ProblemOf(es).before
      ensures a < |es| / 2 && b < |es| / 2 && a != b
    {
      CallBeforeReturn(es, a);
    }
  }

  // ----- What is left of a timeline -----

  /** Index 0 is the head, index x > 0 the entry at x - 1; exactly the entries of operations not done remain. */
  ghost predicate IsLeft<I, O>(es: seq<Entry<I, O>>, done: set<nat>, list: seq<nat>) {
    && list != [] && list[0] == 0
    && (forall i {:trigger list[i]} :: 0 < i < |list| ==> 1 <= list[i] <= |es| && es[list[i] - 1].id !in done)
    && (forall i, j {:trigger list[i], list[j]} :: 0 <= i < j < |list| ==> list[i] < list[j])
    && (forall x {:trigger x in list} :: 1 <= x <= |es| && es[x - 1].id !in done ==> x in list)
  }

  /** The list with positions p and m taken out. */
  function Without<T>(list: seq<T>, p: nat, m: nat): seq<T>
    requires p < m < |list|
  {
    list[..p] + list[p + 1..m] + list[m + 1..]
  }

  lemma WithoutAt<T>(list: seq<T>, p: nat, m: nat, i: nat)
    requires p < m < |list| && i < |list| - 2
    ensures |Without(list, p, m)| == |list| - 2
    ensures Without(list, p, m)[i] == list[if i < p then i else if i + 1 < m then i + 1 else i + 2]
  {
  }

  /** Positions p and m of the list are the call and the return of one operation. */
  ghost predicate IsPair<I, O>(es: seq<Entry<I, O>>, list: seq<nat>, p: nat, m: nat) {
    && 1 <= p < m < |list| && 1 <= list[p] <= |es| && 1 <= list[m] <= |es|
    && es[list[p] - 1].Call? && es[list[m] - 1].Return? && es[list[p] - 1].id == es[list[m] - 1].id
  }

  lemma LeftWithout<I, O>(es: seq<Entry<I, O>>, done: set<nat>, list: seq<nat>, p: nat, m: nat)
    requires WellFormed(es) && IsLeft(es, done, list) && IsPair(es, list, p, m)
    ensures IsLeft(es, done + {es[list[p] - 1].id}, Without(list, p, m))
  {
    hide WellFormed;
    var id, list2 := es[list[p] - 1].id, Without(list, p, m);
    forall i | 0 <= i < |list2|
      ensures list2[i] == list[if i < p then i else if i + 1 < m then i + 1 else i + 2]
    {
      WithoutAt(list, p, m, i);
    }
    forall i | 0 < i < |list2|
      ensures 1 <= list2[i] <= |es| && es[list2[i] - 1].id !in done + {id}
    {
      OnlyTwo(es, list[p] - 1, list[m] - 1, list2[i] - 1);
    }
    forall x | 1 <= x <= |es| && es[x - 1].id !in done + {id}
      ensures x in list2
    {
      assert x in list;
      StillIn(list, p, m, x);
    }
  }

  lemma StillIn(list: seq<nat>, p: nat, m: nat, x: nat)
    requires p < m < |list| && x in list && x != list[p] && x != list[m]
    ensures x in Without(list, p, m)
  {
    assert list == list[..p] + [list[p]] + list[p + 1..m] + [list[m]] + list[m + 1..];
  }

  lemma OnlyTwo<I, O>(es: seq<Entry<I, O>>, c: nat, r: nat, x: nat)
    requires WellFormed(es) && c < r < |es| && x < |es| && es[c].id == es[r].id && x != c && x != r
    ensures es[x].id != es[c].id
  {
  }

  /** The return of an operation whose call is in the list is further on. */
  lemma ReturnFollows<I, O>(es: seq<Entry<I, O>>, done: set<nat>, list: seq<nat>, p: nat) returns (m: nat)
    requires WellFormed(es) && IsLeft(es, done, list) && 1 <= p < |list| && es[list[p] - 1].Call?
    ensures IsPair(es, list, p, m) && list[m] == Find(es, es[list[p] - 1].id, true) + 1
  {
    var id := es[list[p] - 1].id;
    FindIs(es, list[p] - 1);
    CallBeforeReturn(es, id);
    var x := Find(es, id, true) + 1;
    assert x in list;
    m :| 0 <= m < |list| && list[m] == x;
  }

  // ----- Minimal operations are the calls before the first return -----

  ghost predicate CallsUpTo<I, O>(es: seq<Entry<I, O>>, list: seq<nat>, k: nat) {
    forall i {:trigger list[i]} :: 1 <= i < k && i < |list| ==> 1 <= list[i] <= |es| && es[list[i] - 1].Call?
  }

  lemma ScannedIsMinimal<I, O>(es: seq<Entry<I, O>>, done: set<nat>, list: seq<nat>, k: nat)
    requires WellFormed(es) && IsLeft(es, done, list) && CallsUpTo(es, list, k + 1) && 1 <= k < |list|
    ensures Minimal(ProblemOf(es), done, es[list[k] - 1].id)
  {
    var id := es[list[k] - 1].id;
    ProblemPosed(es);
    FindIs(es, list[k] - 1);
    forall b | (b, id) in ProblemOf(es).before
      ensures b in done
    {
      assert Find(es, b, true) < list[k] - 1;
      NoReturnBefore(es, done, list, k, Find(es, b, true) + 1);
    }
  }

  lemma NoReturnBefore<I, O>(es: seq<Entry<I, O>>, done: set<nat>, list: seq<nat>, k: nat, x: nat)
    requires IsLeft(es, done, list) && CallsUpTo(es, list, k) && 1 <= k < |list| && 1 <= x < list[k]
    requires x <= |es| && es[x - 1].Return?
    ensures es[x - 1].id in done
  {
    assert es[x - 1].id !in done ==> x in list;
    assert forall j :: 0 <= j < |list| && list[j] == x ==> j < k;
  }

  lemma MinimalIsScanned<I, O>(es: seq<Entry<I, O>>, done: set<nat>, list: seq<nat>, r: nat, id: nat) returns (k: nat)
    requires WellFormed(es) && IsLeft(es, done, list) && 1 <= r < |list| && es[list[r] - 1].Return?
    requires Minimal(ProblemOf(es), done, id)
    ensures 1 <= k < r && list[k] == Find(es, id, false) + 1
  {
    ProblemPosed(es);
    var b, x := es[list[r] - 1].id, Find(es, id, false) + 1;
    FindIs(es, list[r] - 1);
    assert (b, id) !in ProblemOf(es).before;
    assert b in Ids(|es| / 2) && id in Ids(|es| / 2);
    assert x in list;
    k :| 0 <= k < |list| && list[k] == x;
    assert list[k] < list[r];
  }

  /** Everything left out of the list is done. */
  lemma NothingLeft<I, O>(es: seq<Entry<I, O>>, done: set<nat>, list: seq<nat>)
    requires WellFormed(es) && IsLeft(es, done, list) && |list| == 1 && done <= Ids(|es| / 2)
    ensures done == Ids(|es| / 2)
  {
    forall id: nat | id < |es| / 2
      ensures id in done
    {
      var x := Find(es, id, false) + 1;
      assert 1 <= x <= |es| && es[x - 1].id == id;
      assert x !in list;
    }
  }
}
