/** The depth-first search as a path of partial linearizations, and what it has already ruled out. */
module SearchPath {
  import opened Linearizability
  import opened EntryList

  /** What was left, what was done and the model's state; the search stands at position p, or lifted p and m. */
  datatype Level<!S> = Level(list: seq<nat>, done: set<nat>, state: S, p: nat, m: nat)

  ghost predicate Poses<I, O>(es: seq<Entry<I, O>>, pr: Problem<I, O>) {
    WellFormed(es) && pr == ProblemOf(es) && WellPosed(pr) && |pr.inputs| == |es| / 2
  }

  /** The operation at a position of the list. */
  function IdAt<I, O>(es: seq<Entry<I, O>>, list: seq<nat>, i: nat): nat
    requires i < |list| && 1 <= list[i] <= |es|
  {
    es[list[i] - 1].id
  }

  /** Position i holds a call that does not lead to a linearization. */
  ghost predicate RuledOut<S, I, O>(m: Model<S, I, O>, es: seq<Entry<I, O>>, pr: Problem<I, O>, list: seq<nat>,
                                    done: set<nat>, state: S, i: nat)
    requires Poses(es, pr) && done <= Ids(|pr.inputs|) && i < |list|
  {
    1 <= list[i] <= |es| && es[list[i] - 1].Call? && !Leads(m, pr, done, state, IdAt(es, list, i))
  }

  /** Exactly the entries not done are left, and the calls before position p are ruled out. */
  ghost predicate Scanned<S, I, O>(m: Model<S, I, O>, es: seq<Entry<I, O>>, pr: Problem<I, O>, list: seq<nat>,
                                   done: set<nat>, state: S, p: nat)
    requires Poses(es, pr)
  {
    && done <= Ids(|pr.inputs|) && IsLeft(es, done, list)
    && 1 <= p <= |list| && (|list| > 1 ==> p < |list|)
    && (forall i {:trigger RuledOut(m, es, pr, list, done, state, i)} :: 1 <= i < p ==>
      RuledOut(m, es, pr, list, done, state, i))
  }

  ghost predicate LevelOk<S, I, O>(m: Model<S, I, O>, es: seq<Entry<I, O>>, pr: Problem<I, O>, l: Level<S>)
    requires Poses(es, pr)
  {
    Scanned(m, es, pr, l.list, l.done, l.state, l.p)
  }

  /** The next level lifts the operation at p and m, which the model accepts. */
  ghost predicate Follows<S, I, O>(m: Model<S, I, O>, es: seq<Entry<I, O>>, pr: Problem<I, O>, l: Level<S>, n: Level<S>)
    requires Poses(es, pr)
  {
    && IsPair(es, l.list, l.p, l.m)
    && n.list == Without(l.list, l.p, l.m) && n.done == l.done + {IdAt(es, l.list, l.p)}
    && StepOf(m, pr, l.state, IdAt(es, l.list, l.p)) == (true, n.state)
  }

  ghost predicate PathOk<S, I, O>(m: Model<S, I, O>, es: seq<Entry<I, O>>, pr: Problem<I, O>, path: seq<Level<S>>)
    requires Poses(es, pr)
  {
    && path != [] && path[0].done == {} && path[0].state == m.init
    && (forall k {:trigger path[k]} :: 0 <= k < |path| ==> LevelOk(m, es, pr, path[k]))
    && (forall k, n {:trigger path[k], path[n]} :: 0 <= k && n == k + 1 < |path| ==>
      Follows(m, es, pr, path[k], path[n]))
  }

  function Top<S>(path: seq<Level<S>>): Level<S>
    requires path != []
  {
    path[|path| - 1]
  }

  function Replace<S>(path: seq<Level<S>>, l: Level<S>): seq<Level<S>>
    requires path != []
  {
    path[..|path| - 1] + [l]
  }

  /** Moves on to the next entry. */
  function Skip<S>(path: seq<Level<S>>): seq<Level<S>>
    requires path != []
  {
    Replace(path, Top(path).(p := Top(path).p + 1))
  }

  /** Lifts the operation at the current entry. */
  function Push<S, I, O>(es: seq<Entry<I, O>>, path: seq<Level<S>>, m: nat, state: S): seq<Level<S>>
    requires path != [] && IsPair(es, Top(path).list, Top(path).p, m)
  {
    var l := Top(path);
    Replace(path, l.(m := m)) + [Level(Without(l.list, l.p, m), l.done + {IdAt(es, l.list, l.p)}, state, 1, 0)]
  }

  /** Puts the last operation back and moves past it. */
  function Pop<S>(path: seq<Level<S>>): seq<Level<S>>
    requires |path| > 1
  {
    Skip(path[..|path| - 1])
  }

  ghost predicate AtCall<S, I, O>(es: seq<Entry<I, O>>, l: Level<S>) {
    1 <= l.p < |l.list| && 1 <= l.list[l.p] <= |es| && es[l.list[l.p] - 1].Call?
  }

  lemma PassedOver<S, I, O>(m: Model<S, I, O>, es: seq<Entry<I, O>>, pr: Problem<I, O>, l: Level<S>)
    requires Poses(es, pr) && LevelOk(m, es, pr, l) && AtCall(es, l)
      && RuledOut(m, es, pr, l.list, l.done, l.state, l.p)
    ensures LevelOk(m, es, pr, l.(p := l.p + 1))
  {
    hide WellFormed;
    assert l.p + 1 < |l.list| by {
      var r := ReturnFollows(es, l.done, l.list, l.p);
    }
  }

  lemma SkipOk<S, I, O>(m: Model<S, I, O>, es: seq<Entry<I, O>>, pr: Problem<I, O>, path: seq<Level<S>>)
    requires Poses(es, pr) && PathOk(m, es, pr, path) && AtCall(es, Top(path))
    requires RuledOut(m, es, pr, Top(path).list, Top(path).done, Top(path).state, Top(path).p)
    ensures PathOk(m, es, pr, Skip(path))
  {
    hide LevelOk, Poses, RuledOut, AtCall;
    PassedOver(m, es, pr, Top(path));
  }

  lemma PushOk<S, I, O>(m: Model<S, I, O>, es: seq<Entry<I, O>>, pr: Problem<I, O>, path: seq<Level<S>>, r: nat,
                        state: S)
    requires Poses(es, pr) && PathOk(m, es, pr, path) && IsPair(es, Top(path).list, Top(path).p, r)
    requires IdAt(es, Top(path).list, Top(path).p) < |pr.inputs|
    requires StepOf(m, pr, Top(path).state, IdAt(es, Top(path).list, Top(path).p)) == (true, state)
    ensures PathOk(m, es, pr, Push(es, path, r, state))
  {
    PushedLevels(m, es, pr, Top(path), r, state);
    hide LevelOk, Poses, Follows, IsPair, Without, IsLeft, StepOf;
    var l, path2 := Top(path), Push(es, path, r, state);
    assert forall k :: 0 <= k < |path| - 1 ==> path2[k] == path[k];
    forall k | 0 <= k < |path|
      ensures Follows(m, es, pr, path2[k], path2[k + 1])
    {
      if k == |path| - 2 {
        assert Follows(m, es, pr, path[k], path[k + 1]);
        SameFollows(m, es, pr, path[k], l, r);
      } else if k < |path| - 2 {
        assert Follows(m, es, pr, path[k], path[k + 1]);
      }
    }
  }

  lemma SameFollows<S, I, O>(m: Model<S, I, O>, es: seq<Entry<I, O>>, pr: Problem<I, O>, l: Level<S>, n: Level<S>,
                             r: nat)
    requires Poses(es, pr) && Follows(m, es, pr, l, n)
    ensures Follows(m, es, pr, l, n.(m := r))
  {
  }

  lemma PushedLevels<S, I, O>(m: Model<S, I, O>, es: seq<Entry<I, O>>, pr: Problem<I, O>, l: Level<S>, r: nat, state: S)
    requires Poses(es, pr) && LevelOk(m, es, pr, l) && IsPair(es, l.list, l.p, r) && IdAt(es, l.list, l.p) < |pr.inputs|
    requires StepOf(m, pr, l.state, IdAt(es, l.list, l.p)) == (true, state)
    ensures var n := Level(Without(l.list, l.p, r), l.done + {IdAt(es, l.list, l.p)}, state, 1, 0);
      LevelOk(m, es, pr, l.(m := r)) && LevelOk(m, es, pr, n) && Follows(m, es, pr, l.(m := r), n)
  {
    LeftWithout(es, l.done, l.list, l.p, r);
    hide IsLeft, WellFormed, Leads;
  }

  /** Every call before the first return was ruled out: nothing can be done next. */
  lemma DeadEnd<S, I, O>(m: Model<S, I, O>, es: seq<Entry<I, O>>, pr: Problem<I, O>, l: Level<S>)
    requires Poses(es, pr) && LevelOk(m, es, pr, l) && |l.list| > 1 && !AtCall(es, l)
    ensures !CanFinish(m, pr, l.done, l.state)
  {
    var x := IdAt(es, l.list, l.p);
    assert x in Ids(|pr.inputs|) && x !in l.done;
    hide WellFormed, IsLeft;
    forall id | Minimal(pr, l.done, id)
      ensures !Leads(m, pr, l.done, l.state, id)
    {
      var k := MinimalIsScanned(es, l.done, l.list, l.p, id);
      assert RuledOut(m, es, pr, l.list, l.done, l.state, k);
    }
  }

  lemma PopOk<S, I, O>(m: Model<S, I, O>, es: seq<Entry<I, O>>, pr: Problem<I, O>, path: seq<Level<S>>)
    requires Poses(es, pr) && PathOk(m, es, pr, path) && |path| > 1
    requires Top(path).done <= Ids(|pr.inputs|) && !CanFinish(m, pr, Top(path).done, Top(path).state)
    ensures PathOk(m, es, pr, Pop(path))
  {
    var below := path[..|path| - 1];
    var l := Top(below);
    assert l == path[|path| - 2] && Follows(m, es, pr, l, path[|path| - 1]);
    assert RuledOut(m, es, pr, l.list, l.done, l.state, l.p);
    hide LevelOk, Poses, RuledOut;
    SkipOk(m, es, pr, below);
  }

  // ----- What the path has done -----

  lemma {:induction false} DoneGrows<S, I, O>(m: Model<S, I, O>, es: seq<Entry<I, O>>, pr: Problem<I, O>,
                                              path: seq<Level<S>>, j: nat, k: nat)
    requires Poses(es, pr) && PathOk(m, es, pr, path) && j < k < |path|
    ensures path[j].done <= path[k].done && IsPair(es, path[j].list, path[j].p, path[j].m)
    ensures IdAt(es, path[j].list, path[j].p) in path[k].done
    decreases k - j
  {
    hide LevelOk, Poses;
    assert Follows(m, es, pr, path[j], path[j + 1]);
    if j + 1 < k {
      DoneGrows(m, es, pr, path, j + 1, k);
    }
  }

  lemma {:induction false} DoneSize<S, I, O>(m: Model<S, I, O>, es: seq<Entry<I, O>>, pr: Problem<I, O>,
                                             path: seq<Level<S>>, k: nat)
    requires Poses(es, pr) && PathOk(m, es, pr, path) && k < |path|
    ensures |path[k].done| == k
  {
    hide WellFormed, RuledOut;
    if k > 0 {
      DoneSize(m, es, pr, path, k - 1);
      var l := path[k - 1];
      assert LevelOk(m, es, pr, l);
      assert Follows(m, es, pr, l, path[k]);
      assert IdAt(es, l.list, l.p) !in l.done;
    }
  }

  /** The operation lifted at a level. */
  ghost function Lifted<S, I, O>(es: seq<Entry<I, O>>, l: Level<S>): nat {
    if AtCall(es, l) then IdAt(es, l.list, l.p) else 0
  }

  /** The order in which the path lifted operations, from level k on. */
  ghost function Order<S, I, O>(es: seq<Entry<I, O>>, path: seq<Level<S>>, k: nat): seq<nat>
    requires k < |path|
  {
    seq<nat>(|path| - 1 - k, i requires 0 <= i < |path| - 1 - k => Lifted(es, path[k + i]))
  }

  /** A path that has done everything spells out a linearization. */
  lemma {:induction false} Complete<S, I, O>(m: Model<S, I, O>, es: seq<Entry<I, O>>, pr: Problem<I, O>,
                                             path: seq<Level<S>>, k: nat)
    requires Poses(es, pr) && PathOk(m, es, pr, path) && Top(path).done == Ids(|pr.inputs|) && k < |path|
    ensures Witness(m, pr, path[k].done, path[k].state, Order(es, path, k))
    decreases |path| - k
  {
    if k < |path| - 1 {
      Complete(m, es, pr, path, k + 1);
      FirstLifted(m, es, pr, path, k);
      hide Poses, PathOk, Order, LevelOk, Follows, Witness, Minimal;
      PutFirst(m, pr, path[k].done, path[k].state, Lifted(es, path[k]), Order(es, path, k + 1));
    }
  }

  lemma FirstLifted<S, I, O>(m: Model<S, I, O>, es: seq<Entry<I, O>>, pr: Problem<I, O>, path: seq<Level<S>>, k: nat)
    requires Poses(es, pr) && PathOk(m, es, pr, path) && k < |path| - 1
    ensures var l, n, id := path[k], path[k + 1], Lifted(es, path[k]);
      && Minimal(pr, l.done, id) && StepOf(m, pr, l.state, id) == (true, n.state) && n.done == l.done + {id}
      && Order(es, path, k) == [id] + Order(es, path, k + 1)
  {
    hide Poses, LevelOk, Minimal, StepOf, Without;
    var l := path[k];
    assert Follows(m, es, pr, l, path[k + 1]);
    LiftedIsMinimal(m, es, pr, l);
    assert Order(es, path, k) == [Lifted(es, l)] + Order(es, path, k + 1);
  }

  lemma PairsAlong<S, I, O>(m: Model<S, I, O>, es: seq<Entry<I, O>>, pr: Problem<I, O>, path: seq<Level<S>>)
    requires Poses(es, pr) && PathOk(m, es, pr, path)
    ensures forall j {:trigger path[j]} :: 0 <= j < |path| - 1 ==> IsPair(es, path[j].list, path[j].p, path[j].m)
  {
    hide LevelOk, Poses;
    forall j | 0 <= j < |path| - 1
      ensures IsPair(es, path[j].list, path[j].p, path[j].m)
    {
      assert Follows(m, es, pr, path[j], path[j + 1]);
    }
  }

  lemma LiftedIsMinimal<S, I, O>(m: Model<S, I, O>, es: seq<Entry<I, O>>, pr: Problem<I, O>, l: Level<S>)
    requires Poses(es, pr) && LevelOk(m, es, pr, l) && AtCall(es, l)
    ensures Minimal(pr, l.done, IdAt(es, l.list, l.p))
  {
    hide WellFormed, Leads, Minimal;
    forall i | 1 <= i < l.p
      ensures 1 <= l.list[i] <= |es| && es[l.list[i] - 1].Call?
    {
      assert RuledOut(m, es, pr, l.list, l.done, l.state, i);
    }
    ScannedIsMinimal(es, l.done, l.list, l.p);
  }

  // ----- What the cache remembers -----

  ghost predicate OnPath<S>(path: seq<Level<S>>, done: set<nat>, state: S) {
    exists k {:trigger path[k]} :: 1 <= k < |path| && path[k].done == done && path[k].state == state
  }

  /** A remembered configuration is hopeless, unless the search is inside it. */
  ghost predicate Fate<S, I, O>(m: Model<S, I, O>, pr: Problem<I, O>, path: seq<Level<S>>, done: set<nat>, state: S)
    requires WellPosed(pr)
  {
    done <= Ids(|pr.inputs|) && (CanFinish(m, pr, done, state) ==> OnPath(path, done, state))
  }

  ghost predicate Fates<S, I, O>(m: Model<S, I, O>, pr: Problem<I, O>, path: seq<Level<S>>, seen: set<(set<nat>, S)>)
    requires WellPosed(pr)
  {
    forall c {:trigger c in seen} :: c in seen ==> Fate(m, pr, path, c.0, c.1)
  }

  /** A configuration found in the cache needs no second visit. */
  lemma SeenIsHopeless<S, I, O>(m: Model<S, I, O>, es: seq<Entry<I, O>>, pr: Problem<I, O>, path: seq<Level<S>>,
                                seen: set<(set<nat>, S)>, state: S)
    requires Poses(es, pr) && PathOk(m, es, pr, path) && Fates(m, pr, path, seen) && AtCall(es, Top(path))
    requires (Top(path).done + {IdAt(es, Top(path).list, Top(path).p)}, state) in seen
    ensures Top(path).done + {IdAt(es, Top(path).list, Top(path).p)} <= Ids(|pr.inputs|)
    ensures !CanFinish(m, pr, Top(path).done + {IdAt(es, Top(path).list, Top(path).p)}, state)
  {
    var l := Top(path);
    var id := IdAt(es, l.list, l.p);
    var c := (l.done + {id}, state);
    assert Fate(m, pr, path, c.0, c.1);
    assert id !in l.done;
    forall k | 1 <= k < |path|
      ensures path[k].done != c.0
    {
      if k < |path| - 1 {
        DoneGrows(m, es, pr, path, k, |path| - 1);
      }
    }
  }

  lemma FatesKept<S, I, O>(m: Model<S, I, O>, pr: Problem<I, O>, path: seq<Level<S>>, path2: seq<Level<S>>,
                           seen: set<(set<nat>, S)>)
    requires WellPosed(pr) && Fates(m, pr, path, seen) && |path| <= |path2|
    requires forall k {:trigger path[k]} :: 0 <= k < |path| ==>
      path2[k].done == path[k].done && path2[k].state == path[k].state
    ensures Fates(m, pr, path2, seen)
  {
    forall c | c in seen
      ensures Fate(m, pr, path2, c.0, c.1)
    {
      if OnPath(path, c.0, c.1) {
        var k :| 1 <= k < |path| && path[k].done == c.0 && path[k].state == c.1;
        assert path2[k].done == c.0 && path2[k].state == c.1;
      }
    }
  }

  lemma FatesPushed<S, I, O>(m: Model<S, I, O>, es: seq<Entry<I, O>>, pr: Problem<I, O>, path: seq<Level<S>>,
                             seen: set<(set<nat>, S)>, r: nat, state: S)
    requires Poses(es, pr) && PathOk(m, es, pr, path) && Fates(m, pr, path, seen)
    requires IsPair(es, Top(path).list, Top(path).p, r)
    ensures Fates(m, pr, Push(es, path, r, state),
      seen + {(Top(path).done + {IdAt(es, Top(path).list, Top(path).p)}, state)})
  {
    var l, path2 := Top(path), Push(es, path, r, state);
    var c := (l.done + {IdAt(es, l.list, l.p)}, state);
    assert LevelOk(m, es, pr, l);
    assert c.0 <= Ids(|pr.inputs|);
    hide LevelOk, CanFinish, IsPair, Without;
    FatesKept(m, pr, path, path2, seen);
    assert path2[|path|].done == c.0 && path2[|path|].state == state;
    assert OnPath(path2, c.0, c.1);
  }

  lemma FatesSkipped<S, I, O>(m: Model<S, I, O>, pr: Problem<I, O>, path: seq<Level<S>>, seen: set<(set<nat>, S)>)
    requires WellPosed(pr) && path != [] && Fates(m, pr, path, seen)
    ensures Fates(m, pr, Skip(path), seen)
  {
    FatesKept(m, pr, path, Skip(path), seen);
  }

  lemma FatesPopped<S, I, O>(m: Model<S, I, O>, pr: Problem<I, O>, path: seq<Level<S>>, seen: set<(set<nat>, S)>)
    requires WellPosed(pr) && |path| > 1 && Fates(m, pr, path, seen)
    requires Top(path).done <= Ids(|pr.inputs|) && !CanFinish(m, pr, Top(path).done, Top(path).state)
    ensures Fates(m, pr, Pop(path), seen)
  {
    var below := path[..|path| - 1];
    forall c | c in seen
      ensures Fate(m, pr, below, c.0, c.1)
    {
      if CanFinish(m, pr, c.0, c.1) {
        var k :| 1 <= k < |path| && path[k].done == c.0 && path[k].state == c.1;
        assert below[k] == path[k];
      }
    }
    FatesSkipped(m, pr, below, seen);
  }

  // ----- The search space is finite -----

  ghost function Reach<S, I, O>(m: Model<S, I, O>, pr: Problem<I, O>, k: nat): set<(set<nat>, S)>
    requires WellPosed(pr)
  {
    if k == 0 then {({}, m.init)}
    else set c, id | c in Reach(m, pr, k - 1) && id in Ids(|pr.inputs|) :: (c.0 + {id}, StepOf(m, pr, c.1, id).1)
  }

  ghost function Space<S, I, O>(m: Model<S, I, O>, pr: Problem<I, O>, k: nat): set<(set<nat>, S)>
    requires WellPosed(pr)
  {
    Reach(m, pr, k) + (if k == 0 then {} else Space(m, pr, k - 1))
  }

  lemma {:induction false} InSpace<S, I, O>(m: Model<S, I, O>, pr: Problem<I, O>, k: nat, n: nat)
    requires WellPosed(pr) && k <= n
    ensures Reach(m, pr, k) <= Space(m, pr, n)
    decreases n
  {
    hide Reach;
    if k < n { InSpace(m, pr, k, n - 1); }
  }

  lemma {:induction false} PathReaches<S, I, O>(m: Model<S, I, O>, es: seq<Entry<I, O>>, pr: Problem<I, O>,
                                                path: seq<Level<S>>, k: nat)
    requires Poses(es, pr) && PathOk(m, es, pr, path) && k < |path|
    ensures (path[k].done, path[k].state) in Reach(m, pr, k)
  {
    hide LevelOk;
    if k > 0 {
      PathReaches(m, es, pr, path, k - 1);
      var l := path[k - 1];
      assert Follows(m, es, pr, l, path[k]);
      var c, id := (l.done, l.state), IdAt(es, l.list, l.p);
      assert c in Reach(m, pr, k - 1) && id in Ids(|pr.inputs|);
    }
  }

  /** Every configuration on a path is in the search space. */
  lemma PathInSpace<S, I, O>(m: Model<S, I, O>, es: seq<Entry<I, O>>, pr: Problem<I, O>, path: seq<Level<S>>)
    requires Poses(es, pr) && PathOk(m, es, pr, path)
    ensures (Top(path).done, Top(path).state) in Space(m, pr, |pr.inputs|)
  {
    var k := |path| - 1;
    PathReaches(m, es, pr, path, k);
    DoneSize(m, es, pr, path, k);
    assert LevelOk(m, es, pr, path[k]);
    Subset(path[k].done, Ids(|pr.inputs|));
    InSpace(m, pr, k, |pr.inputs|);
  }

  lemma {:induction false} Subset(a: set<nat>, b: set<nat>)
    requires a <= b
    ensures |a| <= |b|
  {
    if a != {} {
      var x :| x in a;
      Subset(a - {x}, b - {x});
    }
  }
}
