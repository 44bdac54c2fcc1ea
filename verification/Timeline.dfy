/** From operations with call and return times to a timeline of entries. */
module Timeline {
  import opened Linearizability
  import opened EntryList

  datatype Operation<I, O> = Operation(clientId: int, input: I, call: int, output: O, ret: int)

  /** Every operation returns no earlier than it was called. */
  ghost predicate Timed<I, O>(h: seq<Operation<I, O>>) {
    forall i {:trigger h[i]} :: 0 <= i < |h| ==> h[i].call <= h[i].ret
  }

  /** The problem a history poses: an operation comes before another if it returned before the other was called. */
  ghost function ProblemOfHistory<I, O>(h: seq<Operation<I, O>>): (p: Problem<I, O>)
    ensures Timed(h) ==> WellPosed(p)
  {
    Problem(
      seq(|h|, i requires 0 <= i < |h| => h[i].input),
      seq(|h|, i requires 0 <= i < |h| => h[i].output),
      set a, b | a in Ids(|h|) && b in Ids(|h|) && h[a].ret < h[b].call :: (a, b))
  }

  /** Times that put fewer operations in order leave a linearizable history linearizable. */
  lemma LooserTimes<S(!new), I(!new), O(!new)>(m: Model<S, I, O>, h: seq<Operation<I, O>>, h2: seq<Operation<I, O>>)
    requires Timed(h) && Timed(h2) && |h2| == |h|
    requires forall i {:trigger h2[i]} :: 0 <= i < |h| ==> h2[i].input == h[i].input && h2[i].output == h[i].output
    requires forall i, j {:trigger h2[i], h2[j]} :: 0 <= i < |h| && 0 <= j < |h| && h2[i].ret < h2[j].call ==>
      h[i].ret < h[j].call
    requires Linearizable(m, ProblemOfHistory(h))
    ensures Linearizable(m, ProblemOfHistory(h2))
  {
    var p, p2 := ProblemOfHistory(h), ProblemOfHistory(h2);
    assert p2.inputs == p.inputs && p2.outputs == p.outputs && p2.before <= p.before;
    hide ProblemOfHistory;
    var order :| Witness(m, p, {}, m.init, order);
    SamePasses(m, p, p2, order, m.init);
    assert Witness(m, p2, {}, m.init, order);
  }

  lemma {:induction false} SamePasses<S, I, O>(m: Model<S, I, O>, p: Problem<I, O>, p2: Problem<I, O>, order: seq<nat>,
                                               st: S)
    requires WellPosed(p) && WellPosed(p2) && p2.inputs == p.inputs && p2.outputs == p.outputs
    requires forall i {:trigger order[i]} :: 0 <= i < |order| ==> order[i] < |p.inputs|
    ensures Passes(m, p2, order, st) == Passes(m, p, order, st)
  {
    if order != [] { SamePasses(m, p, p2, order[1..], StepOf(m, p, st, order[0]).1); }
  }

  /** Call and return of each operation, in the order of the history. */
  function Raw<I, O>(h: seq<Operation<I, O>>): seq<Entry<I, O>> {
    seq(2 * |h|, k requires 0 <= k < 2 * |h| =>
      if k % 2 == 0 then Call(k / 2, h[k / 2].input, h[k / 2].call) else Return(k / 2, h[k / 2].output, h[k / 2].ret))
  }

  /** Earlier times first; at equal times calls before returns. */
  predicate Less<I, O>(a: Entry<I, O>, b: Entry<I, O>) {
    if a.time != b.time then a.time < b.time else a.Call? && b.Return?
  }

  ghost predicate Sorted<I, O>(es: seq<Entry<I, O>>) {
    forall i, j {:trigger es[i], es[j]} :: 0 <= i < j < |es| ==> !Less(es[j], es[i])
  }

  /** What sorting by time may produce; equal entries may come in any order. */
  ghost predicate Arranged<I, O>(h: seq<Operation<I, O>>, es: seq<Entry<I, O>>) {
    multiset(es) == multiset(Raw(h)) && Sorted(es)
  }

  // ----- Any arrangement is a timeline of the same problem -----

  /** The entry belongs to the history. */
  ghost predicate OfHistory<I, O>(h: seq<Operation<I, O>>, e: Entry<I, O>) {
    e.id < |h| && match e
      case Call(id, input, time) => input == h[id].input && time == h[id].call
      case Return(id, output, time) => output == h[id].output && time == h[id].ret
  }

  lemma RawIs<I, O>(h: seq<Operation<I, O>>, e: Entry<I, O>)
    ensures e in Raw(h) <==> OfHistory(h, e)
  {
    if OfHistory(h, e) {
      assert Raw(h)[2 * e.id + (if e.Call? then 0 else 1)] == e;
    }
  }

  lemma {:induction false} CountDistinct<T>(s: seq<T>, x: T)
    requires forall i, j {:trigger s[i], s[j]} :: 0 <= i < j < |s| ==> s[i] != s[j]
    ensures multiset(s)[x] <= 1
  {
    if s != [] {
      var t := s[..|s| - 1];
      assert s == t + [s[|s| - 1]];
      CountDistinct(t, x);
      assert x == s[|s| - 1] ==> x !in t;
    }
  }

  lemma CountTwice<T>(s: seq<T>, p: nat, q: nat)
    requires p < q < |s| && s[p] == s[q]
    ensures multiset(s)[s[p]] >= 2
  {
    assert s == s[..q] + s[q..];
    assert s[p] in s[..q] && s[p] in s[q..];
  }

  lemma EntriesDiffer<I, O>(h: seq<Operation<I, O>>, es: seq<Entry<I, O>>, p: nat, q: nat)
    requires Arranged(h, es) && p < q < |es|
    ensures es[p] != es[q] && OfHistory(h, es[p]) && OfHistory(h, es[q])
  {
    var raw := Raw(h);
    CountDistinct(raw, es[p]);
    if es[p] == es[q] { CountTwice(es, p, q); }
    InArrangement(h, es, es[p]);
    InArrangement(h, es, es[q]);
  }

  lemma InArrangement<I, O>(h: seq<Operation<I, O>>, es: seq<Entry<I, O>>, e: Entry<I, O>)
    requires Arranged(h, es)
    ensures e in es <==> OfHistory(h, e)
  {
    RawIs(h, e);
    assert e in es <==> e in multiset(es);
    assert e in Raw(h) <==> e in multiset(Raw(h));
  }

  lemma FindsEntry<I, O>(h: seq<Operation<I, O>>, es: seq<Entry<I, O>>, id: nat, ret: bool)
    requires Arranged(h, es) && id < |h|
    ensures var p := Find(es, id, ret); p < |es| && OfHistory(h, es[p]) && es[p].id == id && es[p].Return? == ret
  {
    var e := if ret then Return(id, h[id].output, h[id].ret) else Call(id, h[id].input, h[id].call);
    InArrangement(h, es, e);
    var k :| 0 <= k < |es| && es[k] == e;
    InArrangement(h, es, es[Find(es, id, ret)]);
  }

  lemma ArrangedWellFormed<I, O>(h: seq<Operation<I, O>>, es: seq<Entry<I, O>>)
    requires Arranged(h, es) && Timed(h)
    ensures WellFormed(es) && |es| == 2 * |h|
  {
    assert |es| == |multiset(es)| == |multiset(Raw(h))| == |Raw(h)|;
    forall p | 0 <= p < |es|
      ensures es[p].id < |h|
    {
      InArrangement(h, es, es[p]);
    }
    forall p, q | 0 <= p < q < |es| && es[p].id == es[q].id
      ensures es[p].Call? && es[q].Return?
    {
      EntriesDiffer(h, es, p, q);
      assert !Less(es[q], es[p]);
    }
    forall id: nat | id < |h|
      ensures Find(es, id, false) < |es| && Find(es, id, true) < |es|
    {
      FindsEntry(h, es, id, false);
      FindsEntry(h, es, id, true);
    }
  }

  /** Sorting keeps the problem: positions say exactly which operation returned before which was called. */
  lemma ArrangedSameProblem<I, O>(h: seq<Operation<I, O>>, es: seq<Entry<I, O>>)
    requires Arranged(h, es) && Timed(h)
    ensures WellFormed(es) && ProblemOf(es) == ProblemOfHistory(h)
  {
    ArrangedWellFormed(h, es);
    hide WellFormed, Arranged, Find;
    var p, q := ProblemOf(es), ProblemOfHistory(h);
    forall id: nat | id < |h|
      ensures p.inputs[id] == q.inputs[id] && p.outputs[id] == q.outputs[id]
    {
      FindsEntry(h, es, id, false);
      FindsEntry(h, es, id, true);
    }
    forall a: nat, b: nat | a < |h| && b < |h|
      ensures Find(es, a, true) < Find(es, b, false) <==> h[a].ret < h[b].call
    {
      PlacesAreTimes(h, es, a, b);
    }
  }

  lemma PlacesAreTimes<I, O>(h: seq<Operation<I, O>>, es: seq<Entry<I, O>>, a: nat, b: nat)
    requires Arranged(h, es) && a < |h| && b < |h|
    ensures Find(es, a, true) < Find(es, b, false) <==> h[a].ret < h[b].call
  {
    FindsEntry(h, es, a, true);
    FindsEntry(h, es, b, false);
    hide Find;
  }

  // ----- The method -----

  /** Sorts by time, one entry at a time into place. */
  method SortByTime<I, O>(entries: seq<Entry<I, O>>) returns (es: seq<Entry<I, O>>)
    ensures multiset(es) == multiset(entries) && Sorted(es)
  {
    es := [];
    for i := 0 to |entries|
      invariant multiset(es) == multiset(entries[..i]) && Sorted(es)
    {
      var k := |es|;
      while k > 0 && Less(entries[i], es[k - 1])
        invariant 0 <= k <= |es|
        invariant forall j :: k <= j < |es| ==> Less(entries[i], es[j])
      {
        k := k - 1;
      }
      InsertKeeps(es, entries[i], k);
      assert entries[..i + 1] == entries[..i] + [entries[i]];
      assert es == es[..k] + es[k..];
      es := es[..k] + [entries[i]] + es[k..];
    }
    assert entries[..|entries|] == entries;
  }

  lemma InsertKeeps<I, O>(es: seq<Entry<I, O>>, e: Entry<I, O>, k: nat)
    requires Sorted(es) && k <= |es| && (k > 0 ==> !Less(e, es[k - 1]))
    requires forall j :: k <= j < |es| ==> Less(e, es[j])
    ensures Sorted(es[..k] + [e] + es[k..])
  {
    var es2 := es[..k] + [e] + es[k..];
    forall j | 0 <= j < k
      ensures !Less(e, es[j])
    {
      assert j < k - 1 ==> !Less(es[k - 1], es[j]);
    }
  }

  method MakeEntries<I, O>(history: seq<Operation<I, O>>) returns (es: seq<Entry<I, O>>)
    ensures Arranged(history, es)
    ensures Timed(history) ==> WellFormed(es) && ProblemOf(es) == ProblemOfHistory(history)
  {
    var entries: seq<Entry<I, O>> := [];
    for id := 0 to |history|
      invariant |entries| == 2 * id && entries == Raw(history)[..2 * id]
    {
      var elem := history[id];
      entries := entries + [Call(id, elem.input, elem.call)];
      entries := entries + [Return(id, elem.output, elem.ret)];
    }
    assert Raw(history)[..2 * |history|] == Raw(history);
    es := SortByTime(entries);
    if Timed(history) { ArrangedSameProblem(history, es); }
  }
}
