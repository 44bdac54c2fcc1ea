/** The key/value model of the checker, and why it may look at one key at a time. */
module KvModel {
  import opened Linearizability
  import opened Timeline

  /** Op 0 gets, 1 puts, anything else appends. */
  datatype KvInput = KvInput(op: nat, key: string, value: string)

  datatype KvOutput = KvOutput(value: string)

  type History = seq<Operation<KvInput, KvOutput>>

  /** One key's value. */
  function StepKey(st: string, inp: KvInput, out: KvOutput): (bool, string) {
    if inp.op == 0 then (out.value == st, st)
    else if inp.op == 1 then (true, inp.value)
    else (true, st + inp.value)
  }

  const KEY_MODEL: Model<string, KvInput, KvOutput> := Model("", StepKey)

  /** A whole store; a key never written has the empty value. */
  function Lookup(st: map<string, string>, key: string): string {
    if key in st then st[key] else ""
  }

  function StepStore(st: map<string, string>, inp: KvInput, out: KvOutput): (bool, map<string, string>) {
    var (ok, v) := StepKey(Lookup(st, inp.key), inp, out);
    (ok, st[inp.key := v])
  }

  const STORE_MODEL: Model<map<string, string>, KvInput, KvOutput> := Model(map[], StepStore)

  // ----- One key of a problem -----

  type KvProblem = Problem<KvInput, KvOutput>

  function KeyOf(p: KvProblem, id: nat): string
    requires id < |p.inputs|
  {
    p.inputs[id].key
  }

  /** The operations on other keys. */
  ghost function Others(p: KvProblem, key: string): set<nat> {
    set id | id in Ids(|p.inputs|) && KeyOf(p, id) != key
  }

  /** The rest of one key's operations can be finished from its value. */
  ghost predicate KeyCanFinish(p: KvProblem, done: set<nat>, st: map<string, string>, key: string)
    requires WellPosed(p) && done <= Ids(|p.inputs|)
  {
    CanFinish(KEY_MODEL, p, done + Others(p, key), Lookup(st, key))
  }

  /** An operation on the store is an operation on its key and leaves other keys alone. */
  lemma StepIsLocal(p: KvProblem, st: map<string, string>, id: nat, key: string)
    requires WellPosed(p) && id < |p.inputs|
    ensures StepOf(STORE_MODEL, p, st, id).0 == StepOf(KEY_MODEL, p, Lookup(st, KeyOf(p, id)), id).0
    ensures Lookup(StepOf(STORE_MODEL, p, st, id).1, key) ==
      if key == KeyOf(p, id) then StepOf(KEY_MODEL, p, Lookup(st, key), id).1 else Lookup(st, key)
  {
  }

  /** A finish for the store is a finish for every key. */
  lemma {:induction false} StoreGivesKeys(p: KvProblem, done: set<nat>, st: map<string, string>, key: string)
    requires WellPosed(p) && done <= Ids(|p.inputs|) && CanFinish(STORE_MODEL, p, done, st)
    ensures KeyCanFinish(p, done, st, key)
    decreases Ids(|p.inputs|) - done
  {
    if done == Ids(|p.inputs|) {
      assert done + Others(p, key) == Ids(|p.inputs|);
    } else {
      var id := Choose(STORE_MODEL, p, done, st);
      StoreGivesKeys(p, done + {id}, StepOf(STORE_MODEL, p, st, id).1, key);
      StepIsLocal(p, st, id, key);
      OthersAfter(p, done, id, key);
      assert KeyOf(p, id) == key ==> Minimal(p, done + Others(p, key), id);
    }
  }

  // ----- Real time: something can always go first -----

  ghost predicate TimesOf(h: History, p: KvProblem) {
    Timed(h) && p == ProblemOfHistory(h)
  }

  lemma {:induction false} FirstToReturn(h: History, left: set<nat>) returns (b: nat)
    requires left != {} && forall x {:trigger x in left} :: x in left ==> x < |h|
    ensures b in left && forall x {:trigger x in left} :: x in left ==> h[b].ret <= h[x].ret
    decreases left
  {
    var y :| y in left;
    if left == {y} {
      b := y;
    } else {
      var rest := left - {y};
      assert left == rest + {y};
      var c := FirstToReturn(h, rest);
      b := if h[c].ret <= h[y].ret then c else y;
      forall x | x in left
        ensures h[b].ret <= h[x].ret
      {
        assert x == y || x in rest;
      }
    }
  }

  /** The operation its key would do first may go first of all, for the key of the operation first to return. */
  lemma HeadMayGoFirst(h: History, p: KvProblem, done: set<nat>, st: string, b: nat, order: seq<nat>)
    requires TimesOf(h, p) && done <= Ids(|p.inputs|) && b < |h| && b !in done
    requires forall x {:trigger x in done} :: 0 <= x < |h| && x !in done ==> h[b].ret <= h[x].ret
    requires Witness(KEY_MODEL, p, done + Others(p, KeyOf(p, b)), st, order)
    ensures order != [] && Minimal(p, done, order[0]) && KeyOf(p, order[0]) == KeyOf(p, b)
  {
    assert b in order;
    var k :| 0 <= k < |order| && order[k] == b;
    assert h[order[0]].call <= h[b].ret by {
      if k > 0 {
        assert (order[k], order[0]) !in p.before;
      }
    }
    assert order[0] !in done + Others(p, KeyOf(p, b));
  }

  lemma FirstStep(p: KvProblem, done: set<nat>, st: string, order: seq<nat>)
    requires WellPosed(p) && done <= Ids(|p.inputs|) && Witness(KEY_MODEL, p, done, st, order) && order != []
    ensures order[0] < |p.inputs| && StepOf(KEY_MODEL, p, st, order[0]).0
    ensures CanFinish(KEY_MODEL, p, done + {order[0]}, StepOf(KEY_MODEL, p, st, order[0]).1)
  {
    var id, rest := order[0], order[1..];
    assert forall i :: 0 <= i < |rest| ==> rest[i] == order[i + 1];
    forall x: nat | x < |p.inputs| && x !in done + {id}
      ensures x in rest
    {
      assert x in order;
    }
    OrderGivesChoice(KEY_MODEL, p, done + {id}, StepOf(KEY_MODEL, p, st, id).1, rest);
  }

  /** Finishes for every key can be merged into one for the store. */
  lemma {:induction false} KeysGiveStore(h: History, p: KvProblem, done: set<nat>, st: map<string, string>)
    requires TimesOf(h, p) && done <= Ids(|p.inputs|)
    requires forall key {:trigger KeyCanFinish(p, done, st, key)} :: KeyCanFinish(p, done, st, key)
    ensures CanFinish(STORE_MODEL, p, done, st)
    decreases Ids(|p.inputs|) - done
  {
    if done != Ids(|p.inputs|) {
      var id := FirstOfAll(h, p, done, st);
      var st2 := StepOf(STORE_MODEL, p, st, id).1;
      forall key
        ensures KeyCanFinish(p, done + {id}, st2, key)
      {
        assert KeyCanFinish(p, done, st, key);
        AfterFirst(p, done, st, id, key);
      }
      KeysGiveStore(h, p, done + {id}, st2);
      hide TimesOf, KeyCanFinish, StepOf;
      assert Minimal(p, done, id);
    }
  }

  lemma FirstOfAll(h: History, p: KvProblem, done: set<nat>, st: map<string, string>) returns (id: nat)
    requires TimesOf(h, p) && done < Ids(|p.inputs|)
    requires forall key {:trigger KeyCanFinish(p, done, st, key)} :: KeyCanFinish(p, done, st, key)
    ensures Minimal(p, done, id) && StepOf(STORE_MODEL, p, st, id).0
    ensures CanFinish(KEY_MODEL, p, done + Others(p, KeyOf(p, id)) + {id},
      StepOf(KEY_MODEL, p, Lookup(st, KeyOf(p, id)), id).1)
  {
    var b := FirstToReturn(h, Ids(|p.inputs|) - done);
    var key := KeyOf(p, b);
    assert KeyCanFinish(p, done, st, key);
    assert forall x :: 0 <= x < |h| && x !in done ==> x in Ids(|p.inputs|) - done;
    assert WellPosed(p) && |p.inputs| == |h|;
    hide CanFinish, StepOf, Witness, Others, TimesOf, WellPosed, Minimal;
    var order := ChoiceGivesOrder(KEY_MODEL, p, done + Others(p, key), Lookup(st, key));
    HeadMayGoFirst(h, p, done, Lookup(st, key), b, order);
    id := order[0];
    FirstStep(p, done + Others(p, key), Lookup(st, key), order);
    StepIsLocal(p, st, id, key);
  }

  lemma AfterFirst(p: KvProblem, done: set<nat>, st: map<string, string>, id: nat, key: string)
    requires WellPosed(p) && done <= Ids(|p.inputs|) && id < |p.inputs| && KeyCanFinish(p, done, st, key)
    requires CanFinish(KEY_MODEL, p, done + Others(p, KeyOf(p, id)) + {id},
      StepOf(KEY_MODEL, p, Lookup(st, KeyOf(p, id)), id).1)
    ensures KeyCanFinish(p, done + {id}, StepOf(STORE_MODEL, p, st, id).1, key)
  {
    StepIsLocal(p, st, id, key);
    OthersAfter(p, done, id, key);
    hide CanFinish, StepOf, Others, WellPosed;
  }

  lemma OthersAfter(p: KvProblem, done: set<nat>, id: nat, key: string)
    requires id < |p.inputs|
    ensures done + {id} + Others(p, key) ==
      if key == KeyOf(p, id) then done + Others(p, key) + {id} else done + Others(p, key)
  {
  }

  // ----- One key's history on its own -----

  /** Where the operations on a key are. */
  function Positions(h: History, key: string): (pos: seq<nat>)
    ensures forall i {:trigger pos[i]} :: 0 <= i < |pos| ==> pos[i] < |h| && h[pos[i]].input.key == key
    ensures forall i, j {:trigger pos[i], pos[j]} :: 0 <= i < j < |pos| ==> pos[i] < pos[j]
    ensures forall x {:trigger x in pos} :: 0 <= x < |h| && h[x].input.key == key ==> x in pos
  {
    if h == [] then []
    else
      var n := |h| - 1;
      Positions(h[..n], key) + (if h[n].input.key == key then [n] else [])
  }

  /** The operations on a key, in the order of the history. */
  function SubHistory(h: History, key: string): History {
    var pos := Positions(h, key);
    seq(|pos|, i requires 0 <= i < |pos| => h[pos[i]])
  }

  ghost predicate MatchAt(p: KvProblem, key: string, q: KvProblem, pos: seq<nat>, i: nat)
    requires WellPosed(p) && WellPosed(q) && |q.inputs| == |pos| && i < |pos|
  {
    pos[i] < |p.inputs| && KeyOf(p, pos[i]) == key && p.inputs[pos[i]] == q.inputs[i]
      && p.outputs[pos[i]] == q.outputs[i]
  }

  ghost predicate PairAt(p: KvProblem, q: KvProblem, pos: seq<nat>, i: nat, j: nat)
    requires i < |pos| && j < |pos|
  {
    (i != j ==> pos[i] != pos[j]) && ((i, j) in q.before <==> (pos[i], pos[j]) in p.before)
  }

  ghost predicate Covered(p: KvProblem, key: string, pos: seq<nat>, x: nat) {
    x < |p.inputs| && KeyOf(p, x) == key ==> x in pos
  }

  /** Operation i of the one problem is operation pos[i] of the other, and these are all the operations on the key. */
  ghost predicate Embeds(p: KvProblem, key: string, q: KvProblem, pos: seq<nat>) {
    && WellPosed(p) && WellPosed(q) && |q.inputs| == |pos|
    && (forall i: nat {:trigger MatchAt(p, key, q, pos, i)} :: i < |pos| ==> MatchAt(p, key, q, pos, i))
    && (forall i: nat, j: nat {:trigger PairAt(p, q, pos, i, j)} :: i < |pos| && j < |pos| ==> PairAt(p, q, pos, i, j))
    && (forall x: nat {:trigger Covered(p, key, pos, x)} :: Covered(p, key, pos, x))
  }

  lemma SubEmbeds(h: History, key: string)
    requires Timed(h)
    ensures Embeds(ProblemOfHistory(h), key, ProblemOfHistory(SubHistory(h, key)), Positions(h, key))
  {
    SubTimed(h, key);
    var p, q, pos := ProblemOfHistory(h), ProblemOfHistory(SubHistory(h, key)), Positions(h, key);
    forall i: nat, j: nat | i < |pos| && j < |pos|
      ensures PairAt(p, q, pos, i, j)
    {
      BeforeIs(SubHistory(h, key), i, j);
      BeforeIs(h, pos[i], pos[j]);
      hide ProblemOfHistory;
    }
    hide PairAt, WellPosed;
  }

  lemma BeforeIs(h: History, a: nat, b: nat)
    requires a < |h| && b < |h|
    ensures (a, b) in ProblemOfHistory(h).before <==> h[a].ret < h[b].call
  {
  }

  /** The other keys' operations, and this key's done ones. */
  ghost function Full(p: KvProblem, key: string, pos: seq<nat>, done: set<nat>): set<nat> {
    set x | x in Ids(|p.inputs|) && (KeyOf(p, x) == key ==> Done(pos, done, x))
  }

  ghost predicate Done(pos: seq<nat>, done: set<nat>, x: nat) {
    exists i {:trigger i in done} :: 0 <= i < |pos| && pos[i] == x && i in done
  }

  lemma InFull(p: KvProblem, key: string, q: KvProblem, pos: seq<nat>, done: set<nat>, i: nat)
    requires Embeds(p, key, q, pos) && i < |pos|
    ensures MatchAt(p, key, q, pos, i) && (pos[i] in Full(p, key, pos, done) <==> i in done)
    ensures Full(p, key, pos, done) + {pos[i]} == Full(p, key, pos, done + {i})
  {
    assert MatchAt(p, key, q, pos, i);
    forall x: nat
      ensures Done(pos, done + {i}, x) <==> Done(pos, done, x) || x == pos[i]
    {
      assert i in done + {i};
      assert forall j :: j in done ==> j in done + {i};
    }
    forall j: nat | j < |pos| && j in done && pos[j] == pos[i]
      ensures i in done
    {
      assert PairAt(p, q, pos, i, j);
    }
  }

  lemma SameMinimal(p: KvProblem, key: string, q: KvProblem, pos: seq<nat>, done: set<nat>, i: nat)
    requires Embeds(p, key, q, pos) && i < |pos|
    ensures Minimal(p, Full(p, key, pos, done), pos[i]) <==> Minimal(q, done, i)
  {
    var full := Full(p, key, pos, done);
    InFull(p, key, q, pos, done, i);
    if Minimal(p, full, pos[i]) {
      forall j | (j, i) in q.before
        ensures j in done
      {
        assert PairAt(p, q, pos, j, i);
        InFull(p, key, q, pos, done, j);
      }
    }
    if Minimal(q, done, i) {
      forall b | (b, pos[i]) in p.before
        ensures b in full
      {
        if KeyOf(p, b) == key {
          assert Covered(p, key, pos, b);
          var j :| 0 <= j < |pos| && pos[j] == b;
          assert PairAt(p, q, pos, j, i);
        }
      }
    }
  }

  lemma AllDone(p: KvProblem, key: string, q: KvProblem, pos: seq<nat>, done: set<nat>)
    requires Embeds(p, key, q, pos) && done <= Ids(|q.inputs|)
    ensures Full(p, key, pos, done) == Ids(|p.inputs|) <==> done == Ids(|q.inputs|)
  {
    var full := Full(p, key, pos, done);
    if done == Ids(|q.inputs|) {
      forall x: nat | x < |p.inputs|
        ensures x in full
      {
        if KeyOf(p, x) == key {
          assert Covered(p, key, pos, x);
          var j :| 0 <= j < |pos| && pos[j] == x;
          assert j in done;
        }
      }
    }
    if full == Ids(|p.inputs|) {
      forall i: nat | i < |q.inputs|
        ensures i in done
      {
        InFull(p, key, q, pos, done, i);
      }
    }
  }

  /** Numbering one key's operations on their own changes nothing. */
  lemma {:induction false} Renumbered(p: KvProblem, key: string, q: KvProblem, pos: seq<nat>, done: set<nat>,
                                      st: string)
    requires Embeds(p, key, q, pos) && done <= Ids(|q.inputs|)
    ensures CanFinish(KEY_MODEL, p, Full(p, key, pos, done), st) <==> CanFinish(KEY_MODEL, q, done, st)
    decreases Ids(|q.inputs|) - done
  {
    var full := Full(p, key, pos, done);
    AllDone(p, key, q, pos, done);
    if done != Ids(|q.inputs|) {
      assert full <= Ids(|p.inputs|) && full != Ids(|p.inputs|);
      hide CanFinish;
      if CanFinish(KEY_MODEL, p, full, st) {
        var id := Choose(KEY_MODEL, p, full, st);
        assert Covered(p, key, pos, id);
        var i :| 0 <= i < |pos| && pos[i] == id;
        RenumberedStep(p, key, q, pos, done, st, i);
        Chosen(KEY_MODEL, q, done, st, i);
      }
      if CanFinish(KEY_MODEL, q, done, st) {
        var i := Choose(KEY_MODEL, q, done, st);
        RenumberedStep(p, key, q, pos, done, st, i);
        Chosen(KEY_MODEL, p, full, st, pos[i]);
      }
    }
  }

  lemma {:induction false} RenumberedStep(p: KvProblem, key: string, q: KvProblem, pos: seq<nat>, done: set<nat>,
                                          st: string, i: nat)
    requires Embeds(p, key, q, pos) && done <= Ids(|q.inputs|) && i < |pos|
    requires Minimal(q, done, i) || Minimal(p, Full(p, key, pos, done), pos[i])
    ensures Minimal(q, done, i) && Minimal(p, Full(p, key, pos, done), pos[i])
    ensures Leads(KEY_MODEL, p, Full(p, key, pos, done), st, pos[i]) <==> Leads(KEY_MODEL, q, done, st, i)
    decreases Ids(|q.inputs|) - done, 0
  {
    SameMinimal(p, key, q, pos, done, i);
    InFull(p, key, q, pos, done, i);
    hide Embeds, Full, CanFinish;
    Renumbered(p, key, q, pos, done + {i}, StepOf(KEY_MODEL, q, st, i).1);
  }

  lemma SubTimed(h: History, key: string)
    requires Timed(h)
    ensures Timed(SubHistory(h, key))
  {
  }

  lemma KeyAlone(h: History, key: string)
    requires Timed(h)
    ensures Timed(SubHistory(h, key))
    ensures KeyCanFinish(ProblemOfHistory(h), {}, map[], key) <==>
      Linearizable(KEY_MODEL, ProblemOfHistory(SubHistory(h, key)))
  {
    SubTimed(h, key);
    var p, q, pos := ProblemOfHistory(h), ProblemOfHistory(SubHistory(h, key)), Positions(h, key);
    SubEmbeds(h, key);
    Renumbered(p, key, q, pos, {}, "");
    assert Full(p, key, pos, {}) == {} + Others(p, key);
    hide ProblemOfHistory, SubHistory, Positions, Full, Others, CanFinish;
    SearchIsExact(KEY_MODEL, q);
  }

  ghost predicate KeyLinearizable(h: History, key: string) {
    Timed(SubHistory(h, key)) && Linearizable(KEY_MODEL, ProblemOfHistory(SubHistory(h, key)))
  }

  /** A history is linearizable as a store exactly when each key's part of it is linearizable on its own. */
  lemma Locality(h: History)
    requires Timed(h)
    ensures Linearizable(STORE_MODEL, ProblemOfHistory(h)) <==> forall key :: KeyLinearizable(h, key)
  {
    var p := ProblemOfHistory(h);
    SearchIsExact(STORE_MODEL, p);
    forall key
      ensures KeyCanFinish(p, {}, map[], key) <==> KeyLinearizable(h, key)
    {
      KeyAlone(h, key);
    }
    if CanFinish(STORE_MODEL, p, {}, map[]) {
      forall key
        ensures KeyLinearizable(h, key)
      {
        StoreGivesKeys(p, {}, map[], key);
      }
    }
    if forall key :: KeyLinearizable(h, key) {
      forall key
        ensures KeyCanFinish(p, {}, map[], key)
      {
        assert KeyLinearizable(h, key);
      }
      KeysGiveStore(h, p, {}, map[]);
    }
  }

  // ----- Partitioning and checking -----

  function Keys(h: History): set<string> {
    set i | 0 <= i < |h| :: h[i].input.key
  }

  lemma AbsentKey(h: History, key: string)
    requires key !in Keys(h)
    ensures SubHistory(h, key) == []
  {
    if SubHistory(h, key) != [] { PresentKey(h, key); }
  }

  lemma PresentKey(h: History, key: string)
    requires SubHistory(h, key) != []
    ensures key in Keys(h)
  {
    assert h[Positions(h, key)[0]].input.key == key;
  }

  lemma NoOperations(p: KvProblem)
    requires WellPosed(p) && |p.inputs| == 0
    ensures Linearizable(KEY_MODEL, p)
  {
    assert Witness(KEY_MODEL, p, {}, "", []);
  }

  lemma SubStep(h: History, i: nat, key: string)
    requires i < |h|
    ensures SubHistory(h[..i + 1], key) == SubHistory(h[..i], key) + (if h[i].input.key == key then [h[i]] else [])
  {
    var a, b := h[..i + 1], h[..i];
    assert a[..i] == b;
  }
}
