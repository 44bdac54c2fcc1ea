/** The linearizability checker: depth-first search over the linked list, with a cache of visited configurations. */
module Checker {
  import Bitset
  import opened Linearizability
  import opened EntryList
  import opened SearchPath
  import opened LinkedEntries

  // ----- The cache -----

  datatype CacheEntry<!S> = CacheEntry(linearized: seq<Bitset.Word>, state: S)

  type Cache<!S> = map<Bitset.Word, seq<CacheEntry<S>>>

  function Bucket<S>(cache: Cache<S>, hash: Bitset.Word): seq<CacheEntry<S>> {
    if hash in cache then cache[hash] else []
  }

  ghost predicate Stores<S>(cache: Cache<S>, b: seq<Bitset.Word>, state: S) {
    CacheEntry(b, state) in Bucket(cache, Bitset.Hash(b))
  }

  /** The cache holds exactly the configurations seen, as bitsets of one size, each in the bucket of its hash. */
  ghost predicate Caches<S>(cache: Cache<S>, seen: set<(set<nat>, S)>, words: nat) {
    && (forall h, e {:trigger e in Bucket(cache, h)} :: e in Bucket(cache, h) ==>
          |e.linearized| == words && (Bitset.Bits(e.linearized), e.state) in seen)
    && (forall c {:trigger c in seen} :: c in seen ==>
          exists b :: |b| == words && Bitset.Bits(b) == c.0 && Stores(cache, b, c.1))
  }

  /** Looking an entry up in its bucket decides whether its configuration was seen. */
  method CacheContains<S(==)>(cache: Cache<S>, entry: CacheEntry<S>, ghost seen: set<(set<nat>, S)>)
    returns (found: bool)
    requires Caches(cache, seen, |entry.linearized|)
    ensures found <==> (Bitset.Bits(entry.linearized), entry.state) in seen
  {
    hide Bitset.Hash;
    var hash := Bitset.HashOf(entry.linearized);
    var bucket := Bucket(cache, hash);
    for i := 0 to |bucket|
      invariant entry !in bucket[..i]
    {
      assert bucket[i] in Bucket(cache, hash);
      var equal := Bitset.EqualWords(entry.linearized, bucket[i].linearized);
      if equal && entry.state == bucket[i].state {
        return true;
      }
    }
    ghost var c := (Bitset.Bits(entry.linearized), entry.state);
    if c in seen {
      ghost var b :| |b| == |entry.linearized| && Bitset.Bits(b) == c.0 && Stores(cache, b, c.1);
      Bitset.BitsDetermine(b, entry.linearized);
    }
    return false;
  }

  lemma Remembered<S>(cache: Cache<S>, entry: CacheEntry<S>, seen: set<(set<nat>, S)>)
    requires Caches(cache, seen, |entry.linearized|)
    ensures var hash := Bitset.Hash(entry.linearized);
      Caches(cache[hash := Bucket(cache, hash) + [entry]], seen + {(Bitset.Bits(entry.linearized), entry.state)},
        |entry.linearized|)
  {
    hide Bitset.Hash, Bitset.Bits;
    var hash := Bitset.Hash(entry.linearized);
    var cache2 := cache[hash := Bucket(cache, hash) + [entry]];
    var added := (Bitset.Bits(entry.linearized), entry.state);
    forall c | c in seen + {added}
      ensures exists b :: |b| == |entry.linearized| && Bitset.Bits(b) == c.0 && Stores(cache2, b, c.1)
    {
      if c in seen {
        var b :| |b| == |entry.linearized| && Bitset.Bits(b) == c.0 && Stores(cache, b, c.1);
        assert Stores(cache2, b, c.1);
      } else {
        assert Stores(cache2, entry.linearized, entry.state);
      }
    }
    forall h, e | e in Bucket(cache2, h)
      ensures |e.linearized| == |entry.linearized| && (Bitset.Bits(e.linearized), e.state) in seen + {added}
    {
      assert e in Bucket(cache, h) || e == entry;
    }
  }

  // ----- The list and the stack on the heap -----

  datatype CallsEntry<!S, !I, !O> = CallsEntry(entry: Node<I, O>, state: S)

  ghost predicate Within(list: seq<nat>, n: nat) {
    forall i {:trigger list[i]} :: 0 <= i < |list| ==> list[i] < n
  }

  /** The nodes at the listed positions. */
  ghost function Chain<I, O>(full: seq<Node<I, O>>, list: seq<nat>): seq<Node<I, O>>
    requires Within(list, |full|)
  {
    seq(|list|, i requires 0 <= i < |list| => full[list[i]])
  }

  /** A head node and one node for each entry. */
  ghost predicate FullOk<I, O>(es: seq<Entry<I, O>>, full: seq<Node<I, O>>) {
    Distinct(full) && NodesOk(es, full, -1) && full[0].mate == null
  }

  /** The operation lifted at a level remembers its place. */
  ghost predicate LiftedAt<S, I, O>(full: seq<Node<I, O>>, l: Level<S>)
    requires Within(l.list, |full|) && 1 <= l.p < l.m < |l.list|
    reads {full[l.list[l.p]], full[l.list[l.m]]}
  {
    Detached(Chain(full, l.list), l.p, l.m)
  }

  ghost predicate PathWithin<S, I, O>(full: seq<Node<I, O>>, path: seq<Level<S>>) {
    && path != [] && Within(Top(path).list, |full|)
    && forall k {:trigger path[k]} :: 0 <= k < |path| - 1 ==>
      Within(path[k].list, |full|) && 1 <= path[k].p < path[k].m < |path[k].list|
  }

  /** What is left is linked, and every lifted operation remembers its place. */
  ghost predicate HeapOk<S, I, O>(full: seq<Node<I, O>>, path: seq<Level<S>>)
    reads full
  {
    && PathWithin(full, path)
    && Linked(Chain(full, Top(path).list))
    && forall k {:trigger LiftedAt(full, path[k])} :: 0 <= k < |path| - 1 ==> LiftedAt(full, path[k])
  }

  ghost predicate StackOk<S, I, O>(full: seq<Node<I, O>>, path: seq<Level<S>>, calls: seq<CallsEntry<S, I, O>>) {
    && |calls| == |path| - 1
    && forall k {:trigger calls[k]} :: 0 <= k < |calls| ==>
         && calls[k].state == path[k].state
         && path[k].p < |path[k].list| && path[k].list[path[k].p] < |full|
         && calls[k].entry == full[path[k].list[path[k].p]]
  }

  lemma NodeId<I, O>(es: seq<Entry<I, O>>, full: seq<Node<I, O>>, x: nat)
    requires FullOk(es, full) && 1 <= x <= |es|
    ensures |full| == |es| + 1 && full[x].id == es[x - 1].id
  {
    assert NodeIs(es, full, -1, x - 1);
  }

  lemma ChainOk<S, I, O>(es: seq<Entry<I, O>>, full: seq<Node<I, O>>, l: Level<S>)
    requires WellFormed(es) && FullOk(es, full) && IsLeft(es, l.done, l.list)
    ensures Within(l.list, |full|) && Distinct(Chain(full, l.list))
    ensures IsPair(es, l.list, l.p, l.m) ==>
      full[l.list[l.p]].mate == full[l.list[l.m]] && full[l.list[l.p]] == Chain(full, l.list)[l.p]
  {
    if IsPair(es, l.list, l.p, l.m) {
      assert NodeIs(es, full, -1, l.list[l.p] - 1);
      FindIs(es, l.list[l.m] - 1);
    }
  }

  lemma ChainWithout<I, O>(full: seq<Node<I, O>>, list: seq<nat>, p: nat, m: nat)
    requires p < m < |list| && Within(list, |full|)
    ensures Within(Without(list, p, m), |full|)
    ensures Chain(full, Without(list, p, m)) == Without(Chain(full, list), p, m)
  {
    var list2 := Without(list, p, m);
    forall i | 0 <= i < |list2|
      ensures list2[i] < |full| && full[list2[i]] == Without(Chain(full, list), p, m)[i]
    {
      WithoutAt(list, p, m, i);
      WithoutAt(Chain(full, list), p, m, i);
    }
  }

  /** Operations lifted earlier are not in the list any more. */
  lemma LiftedApart<S, I, O>(m: Model<S, I, O>, es: seq<Entry<I, O>>, pr: Problem<I, O>, full: seq<Node<I, O>>,
                             path: seq<Level<S>>, k: nat)
    requires Poses(es, pr) && PathOk(m, es, pr, path) && FullOk(es, full) && PathWithin(full, path) && k < |path| - 1
    ensures full[path[k].list[path[k].p]] !in Chain(full, Top(path).list)
    ensures full[path[k].list[path[k].m]] !in Chain(full, Top(path).list)
  {
    assert LevelOk(m, es, pr, path[k]) && LevelOk(m, es, pr, Top(path));
    hide WellFormed, RuledOut;
    DoneGrows(m, es, pr, path, k, |path| - 1);
  }

  lemma AllApart<S, I, O>(m: Model<S, I, O>, es: seq<Entry<I, O>>, pr: Problem<I, O>, full: seq<Node<I, O>>,
                          path: seq<Level<S>>)
    requires Poses(es, pr) && PathOk(m, es, pr, path) && FullOk(es, full)
    ensures PathWithin(full, path)
    ensures forall k {:trigger path[k]} :: 0 <= k < |path| - 1 ==>
      full[path[k].list[path[k].p]] !in Chain(full, Top(path).list)
        && full[path[k].list[path[k].m]] !in Chain(full, Top(path).list)
  {
    PathInRange(m, es, pr, full, path);
    hide Poses, PathOk, FullOk;
    forall k | 0 <= k < |path| - 1
      ensures full[path[k].list[path[k].p]] !in Chain(full, Top(path).list)
        && full[path[k].list[path[k].m]] !in Chain(full, Top(path).list)
    {
      LiftedApart(m, es, pr, full, path, k);
    }
  }

  lemma {:induction false} PathInRange<S, I, O>(m: Model<S, I, O>, es: seq<Entry<I, O>>, pr: Problem<I, O>,
                                                full: seq<Node<I, O>>, path: seq<Level<S>>)
    requires Poses(es, pr) && PathOk(m, es, pr, path) && FullOk(es, full)
    ensures PathWithin(full, path)
  {
    PairsAlong(m, es, pr, path);
    forall k | 0 <= k < |path|
      ensures Within(path[k].list, |full|)
    {
      assert LevelOk(m, es, pr, path[k]);
    }
  }

  method LiftTop<S, I, O>(entry: Node<I, O>, ghost m: Model<S, I, O>, ghost es: seq<Entry<I, O>>,
                          ghost pr: Problem<I, O>, ghost full: seq<Node<I, O>>, ghost path: seq<Level<S>>,
                          ghost r: nat, ghost state: S)
    requires Poses(es, pr) && PathOk(m, es, pr, path) && FullOk(es, full) && HeapOk(full, path)
    requires IsPair(es, Top(path).list, Top(path).p, r) && entry == full[Top(path).list[Top(path).p]]
    modifies full
    ensures HeapOk(full, Push(es, path, r, state))
  {
    ghost var l := Top(path).(m := r);
    ghost var chain := Chain(full, l.list);
    assert IsLeft(es, l.done, l.list) by { assert LevelOk(m, es, pr, Top(path)); }
    ChainOk(es, full, l);
    ChainWithout(full, l.list, l.p, r);
    AllApart(m, es, pr, full, path);
    hide Poses, PathOk, FullOk, Linked, Without, IsLeft, Detached;
    Lift(entry, chain, l.p, r);
    Pushed(full, es, path, r, state);
  }

  lemma Pushed<S, I, O>(full: seq<Node<I, O>>, es: seq<Entry<I, O>>, path: seq<Level<S>>, r: nat, state: S)
    requires PathWithin(full, path) && IsPair(es, Top(path).list, Top(path).p, r)
    requires Within(Without(Top(path).list, Top(path).p, r), |full|)
      && Linked(Chain(full, Without(Top(path).list, Top(path).p, r)))
    requires LiftedAt(full, Top(path).(m := r))
    requires forall k {:trigger LiftedAt(full, path[k])} :: 0 <= k < |path| - 1 ==> LiftedAt(full, path[k])
    ensures HeapOk(full, Push(es, path, r, state))
  {
    hide LiftedAt, Linked, Without, Within;
    var path2 := Push(es, path, r, state);
    forall k | 0 <= k < |path2| - 1
      ensures Within(path2[k].list, |full|) && 1 <= path2[k].p < path2[k].m < |path2[k].list|
        && LiftedAt(full, path2[k])
    {
      assert k < |path| - 1 ==> path2[k] == path[k] && LiftedAt(full, path[k]);
    }
  }

  method UnliftTop<S, I, O>(entry: Node<I, O>, ghost m: Model<S, I, O>, ghost es: seq<Entry<I, O>>,
                            ghost pr: Problem<I, O>, ghost full: seq<Node<I, O>>, ghost path: seq<Level<S>>)
    requires Poses(es, pr) && PathOk(m, es, pr, path) && FullOk(es, full) && HeapOk(full, path) && |path| > 1
    requires entry == full[path[|path| - 2].list[path[|path| - 2].p]]
    modifies full
    ensures HeapOk(full, Pop(path))
  {
    hide Poses, PathOk, FullOk, Linked, Without, IsPair, Distinct, Detached;
    ghost var below := path[..|path| - 1];
    ghost var l := Top(below);
    Below(m, es, pr, full, path);
    Prefix(m, es, pr, path);
    AllApart(m, es, pr, full, below);
    assert LiftedAt(full, path[|path| - 2]);
    Unlift(entry, Chain(full, l.list), l.p, l.m);
    forall k | 0 <= k < |below| - 1
      ensures LiftedAt(full, below[k])
    {
      assert below[k] == path[k] && old(LiftedAt(full, path[k]));
    }
    HeapSkip(full, below);
  }

  lemma Below<S, I, O>(m: Model<S, I, O>, es: seq<Entry<I, O>>, pr: Problem<I, O>, full: seq<Node<I, O>>,
                       path: seq<Level<S>>)
    requires Poses(es, pr) && PathOk(m, es, pr, path) && FullOk(es, full) && PathWithin(full, path) && |path| > 1
    ensures var l := path[|path| - 2]; var chain := Chain(full, l.list);
      Distinct(chain) && full[l.list[l.p]].mate == chain[l.m] && Chain(full, Top(path).list) == Without(chain, l.p, l.m)
  {
    var l := path[|path| - 2];
    assert Follows(m, es, pr, l, path[|path| - 1]);
    assert IsLeft(es, l.done, l.list) by { assert LevelOk(m, es, pr, l); }
    ChainOk(es, full, l);
    ChainWithout(full, l.list, l.p, l.m);
  }

  lemma Prefix<S, I, O>(m: Model<S, I, O>, es: seq<Entry<I, O>>, pr: Problem<I, O>, path: seq<Level<S>>)
    requires Poses(es, pr) && PathOk(m, es, pr, path) && |path| > 1
    ensures PathOk(m, es, pr, path[..|path| - 1])
  {
    hide LevelOk, Follows, Poses;
  }

  lemma HeapSkip<S, I, O>(full: seq<Node<I, O>>, path: seq<Level<S>>)
    requires HeapOk(full, path)
    ensures HeapOk(full, Skip(path))
  {
    hide LiftedAt, Linked, Within;
    var path2 := Skip(path);
    forall k | 0 <= k < |path2| - 1
      ensures Within(path2[k].list, |full|) && 1 <= path2[k].p < path2[k].m < |path2[k].list|
        && LiftedAt(full, path2[k])
    {
      assert path2[k] == path[k] && LiftedAt(full, path[k]);
    }
  }

  // ----- The search -----

  ghost predicate SearchOk<S, I, O>(m: Model<S, I, O>, es: seq<Entry<I, O>>, pr: Problem<I, O>, path: seq<Level<S>>,
                                    seen: set<(set<nat>, S)>)
    requires Poses(es, pr)
  {
    PathOk(m, es, pr, path) && Fates(m, pr, path, seen) && seen <= Space(m, pr, |pr.inputs|)
  }

  lemma StepAside<S, I, O>(m: Model<S, I, O>, es: seq<Entry<I, O>>, pr: Problem<I, O>, path: seq<Level<S>>,
                           seen: set<(set<nat>, S)>)
    requires Poses(es, pr) && SearchOk(m, es, pr, path, seen) && AtCall(es, Top(path))
    requires Hopeless(m, es, pr, Top(path), seen)
    ensures SearchOk(m, es, pr, Skip(path), seen)
  {
    NotLeading(m, es, pr, path, seen);
    hide LevelOk, RuledOut, CanFinish, Poses;
    SkipOk(m, es, pr, path);
    FatesSkipped(m, pr, path, seen);
  }

  /** The model rejects the operation here, or doing it leads to a configuration seen before. */
  ghost predicate Hopeless<S, I, O>(m: Model<S, I, O>, es: seq<Entry<I, O>>, pr: Problem<I, O>, l: Level<S>,
                                    seen: set<(set<nat>, S)>)
    requires Poses(es, pr) && AtCall(es, l)
  {
    var id := IdAt(es, l.list, l.p);
    id < |pr.inputs| && (StepOf(m, pr, l.state, id).0 ==> (l.done + {id}, StepOf(m, pr, l.state, id).1) in seen)
  }

  lemma NotLeading<S, I, O>(m: Model<S, I, O>, es: seq<Entry<I, O>>, pr: Problem<I, O>, path: seq<Level<S>>,
                            seen: set<(set<nat>, S)>)
    requires Poses(es, pr) && SearchOk(m, es, pr, path, seen) && AtCall(es, Top(path))
      && Hopeless(m, es, pr, Top(path), seen)
    ensures Top(path).done <= Ids(|pr.inputs|)
      && RuledOut(m, es, pr, Top(path).list, Top(path).done, Top(path).state, Top(path).p)
  {
    hide WellFormed, IsLeft, Space;
    var l := Top(path);
    var id := IdAt(es, l.list, l.p);
    if StepOf(m, pr, l.state, id).0 {
      SeenIsHopeless(m, es, pr, path, seen, StepOf(m, pr, l.state, id).1);
    }
    assert LevelOk(m, es, pr, l);
  }

  lemma StepIn<S, I, O>(m: Model<S, I, O>, es: seq<Entry<I, O>>, pr: Problem<I, O>, path: seq<Level<S>>,
                        seen: set<(set<nat>, S)>, r: nat, state: S)
    requires Poses(es, pr) && SearchOk(m, es, pr, path, seen) && IsPair(es, Top(path).list, Top(path).p, r)
    requires IdAt(es, Top(path).list, Top(path).p) < |pr.inputs|
    requires StepOf(m, pr, Top(path).state, IdAt(es, Top(path).list, Top(path).p)) == (true, state)
    ensures SearchOk(m, es, pr, Push(es, path, r, state),
      seen + {(Top(path).done + {IdAt(es, Top(path).list, Top(path).p)}, state)})
  {
    PushOk(m, es, pr, path, r, state);
    FatesPushed(m, es, pr, path, seen, r, state);
    var path2 := Push(es, path, r, state);
    assert Top(path2).done == Top(path).done + {IdAt(es, Top(path).list, Top(path).p)} && Top(path2).state == state;
    PathInSpace(m, es, pr, path2);
    hide PathOk, Fates, Poses, Space, Push;
  }

  lemma StepBack<S, I, O>(m: Model<S, I, O>, es: seq<Entry<I, O>>, pr: Problem<I, O>, path: seq<Level<S>>,
                          seen: set<(set<nat>, S)>)
    requires Poses(es, pr) && SearchOk(m, es, pr, path, seen) && |Top(path).list| > 1 && !AtCall(es, Top(path))
    ensures Top(path).done <= Ids(|pr.inputs|) && !CanFinish(m, pr, Top(path).done, Top(path).state)
    ensures |path| > 1 ==> SearchOk(m, es, pr, Pop(path), seen)
  {
    assert LevelOk(m, es, pr, Top(path));
    DeadEnd(m, es, pr, Top(path));
    if |path| > 1 {
      PopOk(m, es, pr, path);
      FatesPopped(m, pr, path, seen);
    }
  }

  /** The node the search looks at. */
  ghost function Here<S, I, O>(full: seq<Node<I, O>>, path: seq<Level<S>>): Node?<I, O>
    requires PathWithin(full, path)
  {
    if Top(path).p < |Top(path).list| then full[Top(path).list[Top(path).p]] else null
  }

  lemma AtNode<S, I, O>(m: Model<S, I, O>, es: seq<Entry<I, O>>, pr: Problem<I, O>, full: seq<Node<I, O>>,
                        path: seq<Level<S>>)
    requires Poses(es, pr) && PathOk(m, es, pr, path) && FullOk(es, full) && PathWithin(full, path)
      && |Top(path).list| > 1
    ensures Here(full, path) != null && (Here(full, path).mate != null <==> AtCall(es, Top(path)))
    ensures AtCall(es, Top(path)) ==>
      var id, here := IdAt(es, Top(path).list, Top(path).p), Here(full, path);
      here.id == id < |pr.inputs| && here.value == In(pr.inputs[id]) && here.mate.value == Out(pr.outputs[id])
  {
    var l := Top(path);
    assert LevelOk(m, es, pr, l);
    var x := l.list[l.p] - 1;
    hide LevelOk;
    assert NodeIs(es, full, -1, x);
    if es[x].Call? {
      FindIs(es, x);
      assert NodeIs(es, full, -1, Find(es, es[x].id, true));
    }
  }

  lemma NextNode<S, I, O>(full: seq<Node<I, O>>, path: seq<Level<S>>)
    requires HeapOk(full, path) && 0 < Top(path).p && |Top(path).list| > 0
    ensures full[Top(path).list[0]].next == (if |Top(path).list| > 1 then full[Top(path).list[1]] else null)
    ensures Top(path).p < |Top(path).list| ==>
      PathWithin(full, Skip(path)) && Here(full, path).next == Here(full, Skip(path))
  {
    var chain := Chain(full, Top(path).list);
    assert PlacedAt(chain, 0);
    if Top(path).p < |chain| {
      assert PlacedAt(chain, Top(path).p);
      HeapSkip(full, path);
    }
  }

  // ----- The main loop -----

  ghost predicate LoopOk<S, I, O>(m: Model<S, I, O>, es: seq<Entry<I, O>>, pr: Problem<I, O>, full: seq<Node<I, O>>,
                                  path: seq<Level<S>>, seen: set<(set<nat>, S)>, entry: Node?<I, O>, state: S,
                                  linearized: array<Bitset.Word>, cache: Cache<S>, calls: seq<CallsEntry<S, I, O>>)
    reads full, linearized
  {
    && Poses(es, pr) && SearchOk(m, es, pr, path, seen)
    && FullOk(es, full) && HeapOk(full, path) && StackOk(full, path, calls)
    && entry == Here(full, path) && state == Top(path).state
    && |pr.inputs| <= 64 * linearized.Length && Bitset.Bits(linearized[..]) == Top(path).done
    && Caches(cache, seen, linearized.Length)
  }

  /** The stack does not hold the level on top. */
  lemma StackSkip<S, I, O>(full: seq<Node<I, O>>, path: seq<Level<S>>, calls: seq<CallsEntry<S, I, O>>)
    requires path != [] && StackOk(full, path, calls)
    ensures StackOk(full, Skip(path), calls)
  {
    var path2 := Skip(path);
    assert |path2| == |path| && forall k {:trigger path2[k]} :: 0 <= k < |path| - 1 ==> path2[k] == path[k];
    hide Skip;
    forall k | 0 <= k < |calls|
      ensures calls[k].state == path2[k].state && path2[k].p < |path2[k].list| && path2[k].list[path2[k].p] < |full|
      ensures calls[k].entry == full[path2[k].list[path2[k].p]]
    {
      assert path2[k] == path[k];
    }
  }

  lemma Aside<S, I, O>(m: Model<S, I, O>, es: seq<Entry<I, O>>, pr: Problem<I, O>, full: seq<Node<I, O>>,
                       path: seq<Level<S>>, seen: set<(set<nat>, S)>, entry: Node<I, O>, state: S,
                       linearized: array<Bitset.Word>, cache: Cache<S>, calls: seq<CallsEntry<S, I, O>>)
    requires LoopOk(m, es, pr, full, path, seen, entry, state, linearized, cache, calls)
    requires AtCall(es, Top(path)) && Hopeless(m, es, pr, Top(path), seen)
    ensures LoopOk(m, es, pr, full, Skip(path), seen, entry.next, state, linearized, cache, calls)
  {
    hide HeapOk, SearchOk, FullOk, Caches, Poses, Hopeless, Bitset.Bits, IsLeft, Within;
    StepAside(m, es, pr, path, seen);
    NextNode(full, path);
    HeapSkip(full, path);
    assert Top(Skip(path)) == Top(path).(p := Top(path).p + 1);
    StackSkip(full, path, calls);
    assert entry.next == Here(full, Skip(path));
    assert SearchOk(m, es, pr, Skip(path), seen);
    assert HeapOk(full, Skip(path));
  }

  lemma Entered<S, I, O>(m: Model<S, I, O>, es: seq<Entry<I, O>>, pr: Problem<I, O>, full: seq<Node<I, O>>,
                         path: seq<Level<S>>, seen: set<(set<nat>, S)>, r: nat, state: S,
                         linearized: array<Bitset.Word>, cache: Cache<S>, calls: seq<CallsEntry<S, I, O>>)
    requires PathWithin(full, path) && StackOk(full, path, calls) && IsPair(es, Top(path).list, Top(path).p, r)
    requires Poses(es, pr) && SearchOk(m, es, pr, Push(es, path, r, state), seen) && FullOk(es, full)
    requires HeapOk(full, Push(es, path, r, state)) && Top(path).list[0] == 0
    requires |pr.inputs| <= 64 * linearized.Length && Caches(cache, seen, linearized.Length)
    requires Bitset.Bits(linearized[..]) == Top(path).done + {IdAt(es, Top(path).list, Top(path).p)}
    ensures LoopOk(m, es, pr, full, Push(es, path, r, state), seen, full[0].next, state, linearized, cache,
                   calls + [CallsEntry(full[Top(path).list[Top(path).p]], Top(path).state)])
  {
    hide HeapOk, SearchOk, Poses, Caches, Bitset.Bits, NodesOk;
    var path2 := Push(es, path, r, state);
    NextNode(full, path2);
  }

  /** What the loop knows at a call. */
  lemma AtCallFacts<S, I, O>(m: Model<S, I, O>, es: seq<Entry<I, O>>, pr: Problem<I, O>, full: seq<Node<I, O>>,
                             path: seq<Level<S>>, seen: set<(set<nat>, S)>, entry: Node<I, O>, state: S,
                             linearized: array<Bitset.Word>, cache: Cache<S>, calls: seq<CallsEntry<S, I, O>>)
    returns (r: nat)
    requires LoopOk(m, es, pr, full, path, seen, entry, state, linearized, cache, calls) && AtCall(es, Top(path))
    ensures Poses(es, pr) && SearchOk(m, es, pr, path, seen) && PathOk(m, es, pr, path) && FullOk(es, full)
    ensures HeapOk(full, path) && PathWithin(full, path) && StackOk(full, path, calls)
    ensures state == Top(path).state && Bitset.Bits(linearized[..]) == Top(path).done
      && Caches(cache, seen, linearized.Length)
    ensures IsPair(es, Top(path).list, Top(path).p, r) && Top(path).list[0] == 0
      && entry == full[Top(path).list[Top(path).p]]
    ensures var id := IdAt(es, Top(path).list, Top(path).p);
      && entry.id == id < |pr.inputs| <= 64 * linearized.Length
      && entry.value == In(pr.inputs[id]) && entry.mate != null && entry.mate.value == Out(pr.outputs[id])
  {
    hide Linked, LiftedAt, StackOk, Caches, Bitset.Bits, Fates, Space, RuledOut, WellFormed, NodesOk;
    AtNode(m, es, pr, full, path);
    assert LevelOk(m, es, pr, Top(path));
    r := ReturnFollows(es, Top(path).done, Top(path).list, Top(path).p);
  }

  /** A configuration is seen for the first time, or the search is one entry further on. */
  ghost predicate Advanced<S>(path: seq<Level<S>>, seen: set<(set<nat>, S)>, path2: seq<Level<S>>,
                              seen2: set<(set<nat>, S)>)
    requires path != []
  {
    seen < seen2 || (seen2 == seen && path2 == Skip(path))
  }

  lemma Closer<S>(path: seq<Level<S>>, seen: set<(set<nat>, S)>, path2: seq<Level<S>>, seen2: set<(set<nat>, S)>,
                  space: set<(set<nat>, S)>)
    requires path != [] && path2 != [] && Advanced(path, seen, path2, seen2) && seen2 <= space
    ensures space - seen2 < space - seen ||
      (seen2 == seen && |path2| == |path| && Top(path2).list == Top(path).list && Top(path2).p == Top(path).p + 1)
  {
    if seen < seen2 {
      var c :| c in seen2 && c !in seen;
      assert c in space - seen && c !in space - seen2;
    }
  }

  /** Marks the current operation as done and takes it out of the list. */
  method Enter<S, I, O>(entry: Node<I, O>, linearized: array<Bitset.Word>, ghost m: Model<S, I, O>,
                        ghost es: seq<Entry<I, O>>,
                        ghost pr: Problem<I, O>, ghost full: seq<Node<I, O>>, ghost path: seq<Level<S>>,
                        ghost seen: set<(set<nat>, S)>,
                        ghost r: nat, ghost state: S) returns (ghost path2: seq<Level<S>>)
    requires Poses(es, pr) && PathOk(m, es, pr, path) && SearchOk(m, es, pr, path, seen) && FullOk(es, full)
      && HeapOk(full, path)
    requires IsPair(es, Top(path).list, Top(path).p, r) && entry == full[Top(path).list[Top(path).p]]
    requires entry.id == IdAt(es, Top(path).list, Top(path).p) < |pr.inputs| <= 64 * linearized.Length
    requires StepOf(m, pr, Top(path).state, IdAt(es, Top(path).list, Top(path).p)) == (true, state)
    modifies full, linearized
    ensures path2 == Push(es, path, r, state) && HeapOk(full, path2)
    ensures SearchOk(m, es, pr, path2, seen + {(Top(path).done + {IdAt(es, Top(path).list, Top(path).p)}, state)})
    ensures linearized[..] == Bitset.With(old(linearized[..]), IdAt(es, Top(path).list, Top(path).p))
  {
    path2 := Push(es, path, r, state);
    hide Poses, PathOk, SearchOk, FullOk, IsPair, HeapOk, Bitset.With;
    StepIn(m, es, pr, path, seen, r, state);
    Bitset.SetBit(linearized, entry.id);
    LiftTop(entry, m, es, pr, full, path, r, state);
  }

  /** Tries the operation called at the current entry. */
  method Advance<S(==), I, O>(m: Model<S, I, O>, headEntry: Node<I, O>, entry: Node<I, O>, state: S,
                              linearized: array<Bitset.Word>,
                              cache: Cache<S>, calls: seq<CallsEntry<S, I, O>>,
                              ghost es: seq<Entry<I, O>>, ghost pr: Problem<I, O>, ghost full: seq<Node<I, O>>,
                              ghost path: seq<Level<S>>, ghost seen: set<(set<nat>, S)>)
    returns (entry2: Node?<I, O>, state2: S, cache2: Cache<S>, calls2: seq<CallsEntry<S, I, O>>,
             ghost path2: seq<Level<S>>, ghost seen2: set<(set<nat>, S)>)
    requires LoopOk(m, es, pr, full, path, seen, entry, state, linearized, cache, calls)
    requires path != [] && full != [] && headEntry == full[0] && AtCall(es, Top(path))
    modifies full, linearized
    ensures LoopOk(m, es, pr, full, path2, seen2, entry2, state2, linearized, cache2, calls2)
    ensures Advanced(path, seen, path2, seen2)
  {
    hide LoopOk, Poses, PathOk, SearchOk, FullOk, HeapOk, StackOk, Caches, IsPair, Push, PathWithin;
    hide Bitset.Bits, Bitset.Hash, Bucket;
    ghost var l := Top(path);
    ghost var id := IdAt(es, l.list, l.p);
    ghost var r := AtCallFacts(m, es, pr, full, path, seen, entry, state, linearized, cache, calls);
    hide AtCall;
    entry2, state2, cache2, calls2, path2, seen2 := entry, state, cache, calls, path, seen;
    var matching := entry.mate;
    var (ok, newState) := m.step(state, entry.value.input, matching.value.output);
    if ok {
      var newLinearized := Bitset.With(linearized[..], entry.id);
      var newCacheEntry := CacheEntry(newLinearized, newState);
      Bitset.BitsChange(linearized[..], entry.id);
      var found := CacheContains(cache, newCacheEntry, seen);
      if !found {
        seen2 := seen + {(l.done + {id}, newState)};
        var hash := Bitset.HashOf(newLinearized);
        Remembered(cache, newCacheEntry, seen);
        cache2 := cache[hash := Bucket(cache, hash) + [newCacheEntry]];
        calls2 := calls + [CallsEntry(entry, state)];
        state2 := newState;
        path2 := Enter(entry, linearized, m, es, pr, full, path, seen, r, newState);
        entry2 := headEntry.next;
        Entered(m, es, pr, full, path, seen2, r, newState, linearized, cache2, calls);
        return;
      }
    }
    Aside(m, es, pr, full, path, seen, entry, state, linearized, cache, calls);
    path2 := Skip(path);
    entry2 := entry.next;
  }

  /** Puts the last operation back and moves past it. */
  method Backtrack<S, I, O>(ghost m: Model<S, I, O>, linearized: array<Bitset.Word>, ghost cache: Cache<S>,
                            calls: seq<CallsEntry<S, I, O>>,
                            ghost es: seq<Entry<I, O>>, ghost pr: Problem<I, O>, ghost full: seq<Node<I, O>>,
                            ghost path: seq<Level<S>>, ghost seen: set<(set<nat>, S)>, ghost entry: Node<I, O>,
                            ghost state: S)
    returns (entry2: Node?<I, O>, state2: S, calls2: seq<CallsEntry<S, I, O>>)
    requires LoopOk(m, es, pr, full, path, seen, entry, state, linearized, cache, calls)
    requires |Top(path).list| > 1 && !AtCall(es, Top(path)) && |path| > 1
    modifies full, linearized
    ensures LoopOk(m, es, pr, full, Pop(path), seen, entry2, state2, linearized, cache, calls2)
  {
    hide Poses, FullOk, HeapOk, Caches, AtCall, IsPair, Bitset.Bits, Bitset.Without, StackOk, Pop, PathWithin;
    StepBack(m, es, pr, path, seen);
    Undone(m, es, pr, full, path, seen);
    hide SearchOk;
    StackTop(full, path, calls);
    var callsTop := calls[|calls| - 1];
    entry2 := callsTop.entry;
    state2 := callsTop.state;
    Bitset.BitsChange(linearized[..], entry2.id);
    Bitset.ClearBit(linearized, entry2.id);
    calls2 := calls[..|calls| - 1];
    UnliftTop(entry2, m, es, pr, full, path);
    Returned(full, path, calls);
    entry2 := entry2.next;
  }

  lemma StackTop<S, I, O>(full: seq<Node<I, O>>, path: seq<Level<S>>, calls: seq<CallsEntry<S, I, O>>)
    requires StackOk(full, path, calls) && |path| > 1
    ensures |calls| == |path| - 1
    ensures var l, c := path[|path| - 2], calls[|calls| - 1];
      l.p < |l.list| && l.list[l.p] < |full| && c.entry == full[l.list[l.p]] && c.state == l.state
  {
    assert calls[|path| - 2].state == path[|path| - 2].state;
  }

  lemma Returned<S, I, O>(full: seq<Node<I, O>>, path: seq<Level<S>>, calls: seq<CallsEntry<S, I, O>>)
    requires StackOk(full, path, calls) && |path| > 1 && HeapOk(full, Pop(path))
    ensures StackOk(full, Pop(path), calls[..|calls| - 1])
    ensures calls[|calls| - 1].entry.next == Here(full, Pop(path))
    ensures Top(Pop(path)).state == path[|path| - 2].state && Top(Pop(path)).done == path[|path| - 2].done
  {
    var below, path2 := path[..|path| - 1], Pop(path);
    var l := path[|path| - 2];
    StackTop(full, path, calls);
    assert Top(below) == l && path2 == Skip(below) && Top(path2).p == l.p + 1;
    assert PlacedAt(Chain(full, l.list), l.p);
    hide HeapOk, PlacedAt;
    assert forall k :: 0 <= k < |path2| - 1 ==> path2[k] == path[k];
  }

  lemma Undone<S, I, O>(m: Model<S, I, O>, es: seq<Entry<I, O>>, pr: Problem<I, O>, full: seq<Node<I, O>>,
                        path: seq<Level<S>>, seen: set<(set<nat>, S)>)
    requires Poses(es, pr) && SearchOk(m, es, pr, path, seen) && FullOk(es, full) && |path| > 1
    ensures var l := path[|path| - 2];
      && l.p < |l.list| && l.list[l.p] < |full|
      && var id := full[l.list[l.p]].id; 0 <= id < |pr.inputs| && Top(path).done - {id} == l.done
  {
    hide Poses, LevelOk, Follows, FullOk, Fates, Space;
    var l := path[|path| - 2];
    assert LevelOk(m, es, pr, l);
    assert Follows(m, es, pr, l, Top(path));
    hide PathOk, SearchOk;
    UndoneAt(m, es, pr, l, Top(path));
    NodeId(es, full, l.list[l.p]);
  }

  lemma UndoneAt<S, I, O>(m: Model<S, I, O>, es: seq<Entry<I, O>>, pr: Problem<I, O>, l: Level<S>, n: Level<S>)
    requires Poses(es, pr) && LevelOk(m, es, pr, l) && Follows(m, es, pr, l, n)
    ensures 1 <= l.p < |l.list| && 1 <= l.list[l.p] <= |es| && IdAt(es, l.list, l.p) < |pr.inputs|
    ensures n.done - {IdAt(es, l.list, l.p)} == l.done
  {
  }

  lemma BeginPath<S, I, O>(m: Model<S, I, O>, es: seq<Entry<I, O>>, pr: Problem<I, O>, full: seq<Node<I, O>>,
                           path: seq<Level<S>>)
    requires WellFormed(es) && pr == ProblemOf(es) && FullOk(es, full) && Linked(full)
    requires path == [Level(seq(|es| + 1, i => i), {}, m.init, 1, 0)]
    ensures Poses(es, pr) && SearchOk(m, es, pr, path, {}) && HeapOk(full, path)
    ensures Here(full, path) == (if es == [] then null else full[1])
  {
    var list := path[0].list;
    ProblemPosed(es);
    assert IsLeft(es, {}, list) by {
      forall x | 1 <= x <= |es| ensures x in list { assert list[x] == x; }
    }
    assert Chain(full, list) == full;
  }

  lemma Begin<S, I, O>(m: Model<S, I, O>, es: seq<Entry<I, O>>, pr: Problem<I, O>, full: seq<Node<I, O>>,
                       path: seq<Level<S>>, linearized: array<Bitset.Word>)
    requires WellFormed(es) && pr == ProblemOf(es) && FullOk(es, full) && Linked(full)
    requires path == [Level(seq(|es| + 1, i => i), {}, m.init, 1, 0)] && linearized[..] == Bitset.Empty(|es| / 2)
    ensures LoopOk(m, es, pr, full, path, {}, if es == [] then null else full[1], m.init, linearized, map[], [])
  {
    BeginPath(m, es, pr, full, path);
    hide WellFormed, SearchOk, FullOk, HeapOk, Linked, ProblemOf, Bitset.Empty, Bitset.Bits;
  }

  lemma CallId<S, I, O>(es: seq<Entry<I, O>>, full: seq<Node<I, O>>, path: seq<Level<S>>,
                        calls: seq<CallsEntry<S, I, O>>, k: nat)
    requires FullOk(es, full) && StackOk(full, path, calls) && k < |path| - 1
      && IsPair(es, path[k].list, path[k].p, path[k].m)
    ensures |calls| == |path| - 1 && calls[k].entry.id == Lifted(es, path[k])
  {
    assert calls[k].state == path[k].state;
    NodeId(es, full, path[k].list[path[k].p]);
  }

  /** The loop's own tests, read off the search. */
  lemma LoopFacts<S, I, O>(m: Model<S, I, O>, es: seq<Entry<I, O>>, pr: Problem<I, O>, full: seq<Node<I, O>>,
                           path: seq<Level<S>>, seen: set<(set<nat>, S)>, entry: Node?<I, O>, state: S,
                           linearized: array<Bitset.Word>, cache: Cache<S>, calls: seq<CallsEntry<S, I, O>>)
    requires LoopOk(m, es, pr, full, path, seen, entry, state, linearized, cache, calls)
    ensures full != [] && (full[0].next == null <==> |Top(path).list| == 1)
    ensures WellPosed(pr) && seen <= Space(m, pr, |pr.inputs|) && 1 <= |Top(path).list|
    ensures |Top(path).list| > 1 ==>
      entry != null && Top(path).p < |Top(path).list| && (entry.mate != null <==> AtCall(es, Top(path)))
    ensures Poses(es, pr) && SearchOk(m, es, pr, path, seen) && FullOk(es, full) && StackOk(full, path, calls)
      && |calls| == |path| - 1
  {
    assert LevelOk(m, es, pr, Top(path));
    assert Top(path).list[0] == 0;
    NextNode(full, path);
    hide LevelOk, HeapOk, FullOk, StackOk;
    if |Top(path).list| > 1 {
      AtNode(m, es, pr, full, path);
    }
  }

  lemma Failure<S(!new), I(!new), O(!new)>(m: Model<S, I, O>, es: seq<Entry<I, O>>, pr: Problem<I, O>,
                                           path: seq<Level<S>>, seen: set<(set<nat>, S)>)
    requires Poses(es, pr) && SearchOk(m, es, pr, path, seen) && |Top(path).list| > 1 && !AtCall(es, Top(path))
      && |path| == 1
    ensures !Linearizable(m, pr)
  {
    StepBack(m, es, pr, path, seen);
    SearchIsExact(m, pr);
  }

  /** Decides whether a history is linearizable, and gives an order when it is. */
  method CheckSingle<S(==, !new), I(!new), O(!new)>(m: Model<S, I, O>, history: seq<Entry<I, O>>)
    returns (ok: bool, order: seq<int>)
    requires WellFormed(history)
    ensures WellPosed(ProblemOf(history))
    ensures ok <==> Linearizable(m, ProblemOf(history))
    ensures ok ==> IsWitness(m, ProblemOf(history), order)
  {
    ghost var es, pr := history, ProblemOf(history);
    var entry, headEntry, n, full := Prepare(history);
    var linearized := Bitset.NewBitset(n);
    var cache: Cache<S> := map[];
    var calls: seq<CallsEntry<S, I, O>> := [];
    var state := m.init;
    ghost var path := [Level(seq(|es| + 1, i => i), {}, m.init, 1, 0)];
    ghost var seen: set<(set<nat>, S)> := {};
    Begin(m, es, pr, full, path, linearized);
    hide WellFormed, Poses, LoopOk, SearchOk, FullOk, StackOk, AtCall, Space, WellPosed, Advanced, Linearizable;
    while headEntry.next != null
      invariant LoopOk(m, es, pr, full, path, seen, entry, state, linearized, cache, calls)
      invariant full != [] && headEntry == full[0] && fresh(full) && fresh(linearized)
      invariant WellPosed(pr)
      decreases Space(m, pr, |pr.inputs|) - seen, |path|, |Top(path).list| - Top(path).p
    {
      LoopFacts(m, es, pr, full, path, seen, entry, state, linearized, cache, calls);
      if entry.mate != null {
        ghost var path0, seen0 := path, seen;
        entry, state, cache, calls, path, seen :=
          Advance(m, headEntry, entry, state, linearized, cache, calls, es, pr, full, path, seen);
        LoopFacts(m, es, pr, full, path, seen, entry, state, linearized, cache, calls);
        Closer(path0, seen0, path, seen, Space(m, pr, |pr.inputs|));
      } else {
        if |calls| == 0 {
          Failure(m, es, pr, path, seen);
          return false, [];
        }
        entry, state, calls := Backtrack(m, linearized, cache, calls, es, pr, full, path, seen, entry, state);
        path := Pop(path);
      }
    }
    LoopFacts(m, es, pr, full, path, seen, entry, state, linearized, cache, calls);
    order := seq(|calls|, i requires 0 <= i < |calls| => calls[i].entry.id);
    Success(m, es, pr, full, path, seen, calls);
    ok := true;
  }

  method Prepare<I, O>(history: seq<Entry<I, O>>)
    returns (entry: Node?<I, O>, headEntry: Node<I, O>, n: nat, ghost full: seq<Node<I, O>>)
    requires WellFormed(history)
    ensures fresh(full) && FullOk(history, full) && Linked(full) && headEntry == full[0] && n == |history| / 2
    ensures entry == (if history == [] then null else full[1])
  {
    var root, nodes := MakeLinkedEntries(history);
    entry := root;
    var l := Length(entry, nodes);
    n := l / 2;
    var head := new Node(NoValue, null, -1);
    headEntry := InsertBefore(head, entry, nodes, 0);
    full := [head] + nodes;
    assert nodes[..0] + [head] + nodes[0..] == full;
    HeadAdded(history, head, nodes);
  }

  lemma HeadAdded<I, O>(es: seq<Entry<I, O>>, head: Node<I, O>, nodes: seq<Node<I, O>>)
    requires Distinct(nodes) && NodesOk(es, nodes, 0) && head !in nodes && head.mate == null
    ensures FullOk(es, [head] + nodes)
  {
    var full := [head] + nodes;
    assert forall k :: 0 < k < |full| ==> full[k] == nodes[k - 1];
    forall x | 0 <= x < |es|
      ensures NodeIs(es, full, -1, x)
    {
      assert NodeIs(es, nodes, 0, x);
    }
  }

  /** When only the head is left, the calls on the stack spell out a linearization. */
  lemma Success<S(!new), I(!new), O(!new)>(m: Model<S, I, O>, es: seq<Entry<I, O>>, pr: Problem<I, O>,
                                           full: seq<Node<I, O>>, path: seq<Level<S>>, seen: set<(set<nat>, S)>,
                                           calls: seq<CallsEntry<S, I, O>>)
    requires Poses(es, pr) && SearchOk(m, es, pr, path, seen) && FullOk(es, full) && StackOk(full, path, calls)
      && |Top(path).list| == 1
    ensures Linearizable(m, pr)
    ensures IsWitness(m, pr, seq(|calls|, i requires 0 <= i < |calls| => calls[i].entry.id))
  {
    assert LevelOk(m, es, pr, Top(path));
    NothingLeft(es, Top(path).done, Top(path).list);
    PairsAlong(m, es, pr, path);
    Complete(m, es, pr, path, 0);
    hide Poses, SearchOk, LevelOk, Witness, IsPair, Lifted;
    var order := seq(|calls|, i requires 0 <= i < |calls| => calls[i].entry.id);
    forall k | 0 <= k < |calls|
      ensures order[k] == Order(es, path, 0)[k]
    {
      CallId(es, full, path, calls, k);
    }
    assert order == Order(es, path, 0);
  }

  /** An order of operations, by number, that explains the history. */
  ghost predicate IsWitness<S, I, O>(m: Model<S, I, O>, p: Problem<I, O>, order: seq<int>)
    requires WellPosed(p)
  {
    (forall i {:trigger order[i]} :: 0 <= i < |order| ==> 0 <= order[i]) && Witness(m, p, {}, m.init, order)
  }
}
