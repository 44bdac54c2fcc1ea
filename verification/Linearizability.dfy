/** What it means for a concurrent history to be explained by a sequential model. */
module Linearizability {

  /** The sequential specification: an initial state and a step that accepts or rejects an output. */
  datatype Model<!S, !I, !O> = Model(init: S, step: (S, I, O) -> (bool, S))

  /** Operations 0 to n-1 with what went in and came out, and which returned before which was called. */
  datatype Problem<!I, !O> = Problem(inputs: seq<I>, outputs: seq<O>, before: set<(nat, nat)>)

  ghost predicate WellPosed<I, O>(p: Problem<I, O>) {
    && |p.inputs| == |p.outputs|
    && (forall a, b {:trigger (a, b) in p.before} :: (a, b) in p.before ==> a < |p.inputs| && b < |p.inputs| && a != b)
  }

  function Ids(n: nat): (r: set<nat>)
    ensures forall i :: i in r <==> 0 <= i < n
    ensures |r| == n
  {
    if n == 0 then {} else Ids(n - 1) + {n - 1}
  }

  function StepOf<S, I, O>(m: Model<S, I, O>, p: Problem<I, O>, st: S, id: nat): (bool, S)
    requires WellPosed(p) && id < |p.inputs|
  {
    m.step(st, p.inputs[id], p.outputs[id])
  }

  // ----- By orders -----

  /** The operations not yet done, each exactly once. */
  ghost predicate Lists(n: nat, done: set<nat>, order: seq<nat>) {
    && (forall i {:trigger order[i]} :: 0 <= i < |order| ==> order[i] < n && order[i] !in done)
    && (forall i, j {:trigger order[i], order[j]} :: 0 <= i < j < |order| ==> order[i] != order[j])
    && (forall id: nat {:trigger id in order} :: id < n && id !in done ==> id in order)
  }

  /** Nothing that returned before an operation was called comes after it. */
  ghost predicate InTime<I, O>(p: Problem<I, O>, order: seq<nat>) {
    forall i, j {:trigger order[i], order[j]} :: 0 <= i < j < |order| ==> (order[j], order[i]) !in p.before
  }

  ghost predicate Passes<S, I, O>(m: Model<S, I, O>, p: Problem<I, O>, order: seq<nat>, st: S)
    requires WellPosed(p) && forall i {:trigger order[i]} :: 0 <= i < |order| ==> order[i] < |p.inputs|
  {
    order == [] ||
    (StepOf(m, p, st, order[0]).0 && Passes(m, p, order[1..], StepOf(m, p, st, order[0]).1))
  }

  ghost predicate Witness<S, I, O>(m: Model<S, I, O>, p: Problem<I, O>, done: set<nat>, st: S, order: seq<nat>)
    requires WellPosed(p)
  {
    Lists(|p.inputs|, done, order) && InTime(p, order) && Passes(m, p, order, st)
  }

  /** Some order of all operations respects real time and passes the model from its initial state. */
  ghost predicate Linearizable<S(!new), I(!new), O(!new)>(m: Model<S, I, O>, p: Problem<I, O>)
    requires WellPosed(p)
  {
    exists order :: Witness(m, p, {}, m.init, order)
  }

  // ----- By choosing a next operation -----

  /** No operation still to be done returned before `id` was called. */
  ghost predicate Minimal<I, O>(p: Problem<I, O>, done: set<nat>, id: nat) {
    && id < |p.inputs| && id !in done
    && forall b {:trigger (b, id) in p.before} :: (b, id) in p.before ==> b in done
  }

  ghost predicate CanFinish<S, I, O>(m: Model<S, I, O>, p: Problem<I, O>, done: set<nat>, st: S)
    requires WellPosed(p) && done <= Ids(|p.inputs|)
    decreases Ids(|p.inputs|) - done
  {
    done == Ids(|p.inputs|) ||
    exists id {:trigger Minimal(p, done, id)} ::
      Minimal(p, done, id) && StepOf(m, p, st, id).0 && CanFinish(m, p, done + {id}, StepOf(m, p, st, id).1)
  }

  /** Doing `id` next is allowed, passes, and the rest can be finished. */
  ghost predicate Leads<S, I, O>(m: Model<S, I, O>, p: Problem<I, O>, done: set<nat>, st: S, id: nat)
    requires WellPosed(p) && done <= Ids(|p.inputs|)
  {
    Minimal(p, done, id) && StepOf(m, p, st, id).0 && CanFinish(m, p, done + {id}, StepOf(m, p, st, id).1)
  }

  lemma Choose<S, I, O>(m: Model<S, I, O>, p: Problem<I, O>, done: set<nat>, st: S) returns (id: nat)
    requires WellPosed(p) && done <= Ids(|p.inputs|) && CanFinish(m, p, done, st) && done != Ids(|p.inputs|)
    ensures Leads(m, p, done, st, id)
  {
    id :| Minimal(p, done, id) && StepOf(m, p, st, id).0 && CanFinish(m, p, done + {id}, StepOf(m, p, st, id).1);
  }

  lemma Chosen<S, I, O>(m: Model<S, I, O>, p: Problem<I, O>, done: set<nat>, st: S, id: nat)
    requires WellPosed(p) && done <= Ids(|p.inputs|) && Leads(m, p, done, st, id)
    ensures CanFinish(m, p, done, st)
  {
    assert Minimal(p, done, id);
  }

  lemma ChoiceGivesOrder<S, I, O>(m: Model<S, I, O>, p: Problem<I, O>, done: set<nat>, st: S) returns (order: seq<nat>)
    requires WellPosed(p) && done <= Ids(|p.inputs|) && CanFinish(m, p, done, st)
    ensures Witness(m, p, done, st, order)
    decreases Ids(|p.inputs|) - done
  {
    if done == Ids(|p.inputs|) {
      order := [];
    } else {
      var id :| Minimal(p, done, id) && StepOf(m, p, st, id).0 && CanFinish(m, p, done + {id}, StepOf(m, p, st, id).1);
      var rest := ChoiceGivesOrder(m, p, done + {id}, StepOf(m, p, st, id).1);
      order := [id] + rest;
      PutFirst(m, p, done, st, id, rest);
    }
  }

  lemma PutFirst<S, I, O>(m: Model<S, I, O>, p: Problem<I, O>, done: set<nat>, st: S, id: nat, rest: seq<nat>)
    requires WellPosed(p) && Minimal(p, done, id) && StepOf(m, p, st, id).0
    requires Witness(m, p, done + {id}, StepOf(m, p, st, id).1, rest)
    ensures Witness(m, p, done, st, [id] + rest)
  {
    var order := [id] + rest;
    assert order[1..] == rest;
    assert forall i :: 0 < i < |order| ==> order[i] == rest[i - 1];
    forall x: nat | x < |p.inputs| && x !in done
      ensures x in order
    {
      if x != id { assert x in rest; }
    }
  }

  lemma OrderGivesChoice<S, I, O>(m: Model<S, I, O>, p: Problem<I, O>, done: set<nat>, st: S, order: seq<nat>)
    requires WellPosed(p) && done <= Ids(|p.inputs|) && Witness(m, p, done, st, order)
    ensures CanFinish(m, p, done, st)
    decreases |order|
  {
    if order == [] {
      assert forall x: nat :: x < |p.inputs| && x !in done ==> x in order;
      assert done == Ids(|p.inputs|);
    } else {
      var id, rest := order[0], order[1..];
      assert forall i :: 0 <= i < |rest| ==> rest[i] == order[i + 1];
      forall b | (b, id) in p.before
        ensures b in done
      {
        assert b !in done ==> b in order;
        assert forall k :: 0 < k < |order| ==> (order[k], order[0]) !in p.before;
      }
      forall x: nat | x < |p.inputs| && x !in done + {id}
        ensures x in rest
      {
        assert x in order;
      }
      OrderGivesChoice(m, p, done + {id}, StepOf(m, p, st, id).1, rest);
      assert Minimal(p, done, id);
    }
  }

  /** Searching operation by operation finds an order exactly when there is one. */
  lemma SearchIsExact<S(!new), I(!new), O(!new)>(m: Model<S, I, O>, p: Problem<I, O>)
    requires WellPosed(p)
    ensures CanFinish(m, p, {}, m.init) <==> Linearizable(m, p)
  {
    if CanFinish(m, p, {}, m.init) {
      var order := ChoiceGivesOrder(m, p, {}, m.init);
    }
    if Linearizable(m, p) {
      var order :| Witness(m, p, {}, m.init, order);
      OrderGivesChoice(m, p, {}, m.init, order);
    }
  }
}
