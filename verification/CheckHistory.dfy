/** Checking a history: split by key, search each part on its own, gather the verdicts as they arrive. */
module CheckHistory {
  import opened Linearizability
  import opened EntryList
  import opened Timeline
  import opened Checker
  import opened KvModel

  // ----- Splitting by key -----

  lemma KeysStep(h: History, i: nat)
    requires i < |h|
    ensures Keys(h[..i + 1]) == Keys(h[..i]) + {h[i].input.key}
  {
    assert forall j :: 0 <= j < i ==> h[..i + 1][j] == h[..i][j];
    assert h[..i + 1][i] == h[i];
    forall k | k in Keys(h[..i]) + {h[i].input.key}
      ensures k in Keys(h[..i + 1])
    {
      if k in Keys(h[..i]) {
        var j :| 0 <= j < |h[..i]| && h[..i][j].input.key == k;
        assert h[..i + 1][j].input.key == k;
      } else {
        assert h[..i + 1][i].input.key == k;
      }
    }
  }

  method GroupByKey(history: History) returns (m: map<string, History>)
    ensures m.Keys == Keys(history)
    ensures forall key {:trigger m[key]} :: key in m ==> m[key] == SubHistory(history, key)
  {
    m := map[];
    for i := 0 to |history|
      invariant m.Keys == Keys(history[..i])
      invariant forall key {:trigger m[key]} :: key in m ==> m[key] == SubHistory(history[..i], key)
    {
      var v := history[i];
      var key := v.input.key;
      ghost var m0 := m;
      if key !in m { AbsentKey(history[..i], key); }
      m := m[key := (if key in m then m[key] else []) + [v]];
      KeysStep(history, i);
      hide SubHistory, Keys;
      forall k | k in m
        ensures m[k] == SubHistory(history[..i + 1], k)
      {
        SubStep(history, i, k);
        assert k != key ==> m[k] == m0[k];
      }
    }
    assert history[..|history|] == history;
  }

  /** The order of strings: that of their first difference, a prefix first. */
  predicate StringLess(a: string, b: string) {
    b != "" && (a == "" || a[0] < b[0] || (a[0] == b[0] && StringLess(a[1..], b[1..])))
  }

  lemma {:induction false} LessTotal(a: string, b: string)
    ensures a == b || StringLess(a, b) || StringLess(b, a)
    ensures !(StringLess(a, b) && StringLess(b, a)) && !StringLess(a, a)
  {
    if a != "" {
      LessTotal(a[1..], a[1..]);
      if b != "" && a[0] == b[0] {
        assert a == [a[0]] + a[1..] && b == [b[0]] + b[1..];
        LessTotal(a[1..], b[1..]);
      }
    }
  }

  lemma {:induction false} LessTransitive(a: string, b: string, c: string)
    requires StringLess(a, b) && StringLess(b, c)
    ensures StringLess(a, c)
  {
    if a != "" && a[0] == b[0] == c[0] { LessTransitive(a[1..], b[1..], c[1..]); }
  }

  /** One string is less than another as a proper prefix of it, or by the first character in which they differ. */
  lemma {:induction false} LessMeans(a: string, b: string)
    ensures StringLess(a, b) <==>
      a < b || exists k {:trigger a[..k]} :: 0 <= k < |a| && k < |b| && a[..k] == b[..k] && a[k] < b[k]
  {
    if a != "" && b != "" && a[0] == b[0] {
      LessMeans(a[1..], b[1..]);
      assert a[1..] < b[1..] <==> a < b by {
        assert a == [a[0]] + a[1..] && b == [b[0]] + b[1..];
      }
      forall k | 0 <= k < |a| && k < |b| && a[..k] == b[..k] && a[k] < b[k]
        ensures StringLess(a, b)
      {
        assert k > 0 && a[1..][..k - 1] == a[..k][1..] == b[..k][1..] == b[1..][..k - 1];
        assert a[1..][k - 1] < b[1..][k - 1];
      }
      if StringLess(a, b) && !(a < b) {
        var k :| 0 <= k < |a[1..]| && k < |b[1..]| && a[1..][..k] == b[1..][..k] && a[1..][k] < b[1..][k];
        assert a[..k + 1] == [a[0]] + a[1..][..k] && b[..k + 1] == [b[0]] + b[1..][..k];
        assert a[k + 1] < b[k + 1];
      }
    } else if a != "" && b != "" {
      assert a[..0] == b[..0];
      assert !(a < b);
      forall k | 0 < k < |a| && k < |b|
        ensures a[..k] != b[..k]
      {
        assert a[..k][0] != b[..k][0];
      }
    }
  }

  ghost predicate InOrder(keys: seq<string>) {
    forall i, j {:trigger keys[i], keys[j]} :: 0 <= i < j < |keys| ==> StringLess(keys[i], keys[j])
  }

  /** Puts a new key where it belongs. */
  method Insert(keys: seq<string>, key: string) returns (r: seq<string>)
    requires InOrder(keys) && key !in keys
    ensures InOrder(r) && forall k {:trigger k in r} :: k in r <==> k == key || k in keys
  {
    var i := 0;
    while i < |keys| && StringLess(keys[i], key)
      invariant 0 <= i <= |keys| && forall x {:trigger keys[x]} :: 0 <= x < i ==> StringLess(keys[x], key)
    {
      i := i + 1;
    }
    r := keys[..i] + [key] + keys[i..];
    forall y | i <= y < |keys|
      ensures StringLess(key, keys[y])
    {
      LessTotal(keys[i], key);
      if y > i { LessTransitive(key, keys[i], keys[y]); }
    }
    hide StringLess;
    forall k
      ensures k in r <==> k == key || k in keys
    {
      assert keys == keys[..i] + keys[i..];
    }
  }

  /** The different keys of a walk over the map, sorted. */
  method SortStrings(walk: seq<string>) returns (keys: seq<string>)
    requires forall i, j {:trigger walk[i], walk[j]} :: 0 <= i < j < |walk| ==> walk[i] != walk[j]
    ensures InOrder(keys) && forall k {:trigger k in keys} {:trigger k in walk} :: k in keys <==> k in walk
  {
    hide StringLess;
    keys := [];
    for i := 0 to |walk|
      invariant InOrder(keys) && forall k {:trigger k in keys} :: k in keys <==> k in walk[..i]
    {
      assert walk[i] !in walk[..i];
      keys := Insert(keys, walk[i]);
      assert walk[..i + 1] == walk[..i] + [walk[i]];
    }
    assert walk[..|walk|] == walk;
  }

  /** One sub-history for each key, in the order of the keys. */
  method Partition(history: History) returns (parts: seq<History>, keys: seq<string>)
    ensures |parts| == |keys| && InOrder(keys)
    ensures forall j {:trigger parts[j]} :: 0 <= j < |parts| ==> parts[j] == SubHistory(history, keys[j])
    ensures forall key {:trigger key in keys} :: key in keys <==> key in Keys(history)
  {
    hide SubHistory, Keys, StringLess;
    var m := GroupByKey(history);
    var walk, left := [], m.Keys;
    while left != {}
      invariant left <= m.Keys && forall key {:trigger key in walk} :: key in walk <==> key in m.Keys - left
      invariant forall i, j {:trigger walk[i], walk[j]} :: 0 <= i < j < |walk| ==> walk[i] != walk[j]
      decreases left
    {
      var k :| k in left;
      left := left - {k};
      assert k !in walk;
      walk := walk + [k];
    }
    keys := SortStrings(walk);
    parts := [];
    for j := 0 to |keys|
      invariant |parts| == j
      invariant forall i {:trigger parts[i]} :: 0 <= i < j ==> parts[i] == SubHistory(history, keys[i])
    {
      assert keys[j] in keys && keys[j] in m;
      parts := parts + [m[keys[j]]];
    }
  }

  // ----- Searching the parts -----

  method CheckKey(part: History, ghost history: History, ghost key: string) returns (ok: bool)
    requires Timed(history) && part == SubHistory(history, key)
    ensures ok <==> KeyLinearizable(history, key)
  {
    SubTimed(history, key);
    hide ProblemOfHistory, Linearizable, SubHistory, WellFormed, ProblemOf, Arranged, Timed;
    var entries := MakeEntries(part);
    var result, order := CheckSingle(KEY_MODEL, entries);
    ok := result;
  }

  lemma OnlyTheseKeys(h: History, keys: seq<string>)
    requires Timed(h) && forall key {:trigger key in keys} :: key in keys <==> key in Keys(h)
    ensures (forall key :: KeyLinearizable(h, key)) <==> forall i {:trigger keys[i]} :: 0 <= i < |keys| ==>
      KeyLinearizable(h, keys[i])
  {
    if forall i {:trigger keys[i]} :: 0 <= i < |keys| ==> KeyLinearizable(h, keys[i]) {
      forall key
        ensures KeyLinearizable(h, key)
      {
        if key in keys {
          var i :| 0 <= i < |keys| && keys[i] == key;
          assert KeyLinearizable(h, keys[i]);
        } else {
          AbsentKey(h, key);
          NoOperations(ProblemOfHistory(SubHistory(h, key)));
        }
      }
    }
  }

  /** The driver's answer; it may also wait for a report that never comes. */
  datatype CheckResult = Ok | Illegal | Unknown | Waiting

  /** What the driver's select meets next: the verdict on a part, or the timer. */
  datatype Arrival = Finished(part: nat) | TimerFired

  /** Every search reports at most once, in whatever order they end. */
  ghost predicate Reports(n: nat, arrivals: seq<Arrival>) {
    && (forall i {:trigger arrivals[i]} :: 0 <= i < |arrivals| && arrivals[i].Finished? ==> arrivals[i].part < n)
    && forall i, j {:trigger arrivals[i], arrivals[j]} ::
         0 <= i < j < |arrivals| && arrivals[i].Finished? ==> arrivals[i] != arrivals[j]
  }

  ghost function Reported(arrivals: seq<Arrival>, k: nat): set<nat>
    requires k <= |arrivals|
  {
    set i | 0 <= i < k && arrivals[i].Finished? :: arrivals[i].part
  }

  lemma ReportedStep(n: nat, arrivals: seq<Arrival>, k: nat)
    requires Reports(n, arrivals) && k < |arrivals| && arrivals[k].Finished?
    ensures Reported(arrivals, k + 1) == Reported(arrivals, k) + {arrivals[k].part}
    ensures arrivals[k].part !in Reported(arrivals, k) && arrivals[k].part < n
  {
    forall i | 0 <= i < k && arrivals[i].Finished?
      ensures arrivals[i].part != arrivals[k].part
    {
      assert arrivals[i] != arrivals[k];
    }
  }

  /** As many verdicts as parts are the verdicts on all of them. */
  lemma AllReported(n: nat, s: set<nat>)
    requires s <= Ids(n) && |s| >= n
    ensures s == Ids(n)
  {
    assert Ids(n) == s + (Ids(n) - s);
  }

  lemma StillMissing(n: nat, s: set<nat>)
    requires s <= Ids(n) && |s| < n
    ensures s < Ids(n)
  {
    assert Ids(n) <= s ==> s == Ids(n);
  }

  /** What the driver knows after k arrivals: the verdict on every part reported so far. */
  ghost predicate Gathered(history: History, keys: seq<string>, arrivals: seq<Arrival>, k: nat, ok: bool)
    requires k <= |arrivals|
  {
    ok <==> forall j {:trigger keys[j]} ::
      0 <= j < |keys| && j in Reported(arrivals, k) ==> KeyLinearizable(history, keys[j])
  }

  lemma GatherOne(history: History, keys: seq<string>, arrivals: seq<Arrival>, k: nat, ok: bool, result: bool)
    requires Reports(|keys|, arrivals) && k < |arrivals| && arrivals[k].Finished?
    requires Gathered(history, keys, arrivals, k, ok)
    requires result <==> KeyLinearizable(history, keys[arrivals[k].part])
    ensures Gathered(history, keys, arrivals, k + 1, ok && result)
  {
    hide KeyLinearizable;
    ReportedStep(|keys|, arrivals, k);
    hide Reported, Reports;
    if !(ok && result) {
      if !result {
        assert !KeyLinearizable(history, keys[arrivals[k].part]);
      } else {
        var j :| 0 <= j < |keys| && j in Reported(arrivals, k) && !KeyLinearizable(history, keys[j]);
      }
    }
  }

  lemma NothingYet(history: History, keys: seq<string>, arrivals: seq<Arrival>)
    ensures Reported(arrivals, 0) == {} && Gathered(history, keys, arrivals, 0, true)
  {
  }

  lemma NotAll(history: History, keys: seq<string>, arrivals: seq<Arrival>, k: nat)
    requires k <= |arrivals| && Gathered(history, keys, arrivals, k, false)
    ensures !forall j {:trigger keys[j]} :: 0 <= j < |keys| ==> KeyLinearizable(history, keys[j])
  {
    hide KeyLinearizable, Reported;
  }

  lemma GatheredAll(history: History, keys: seq<string>, arrivals: seq<Arrival>, k: nat, ok: bool)
    requires k <= |arrivals| && Gathered(history, keys, arrivals, k, ok) && Reported(arrivals, k) == Ids(|keys|)
    ensures ok <==> forall j {:trigger keys[j]} :: 0 <= j < |keys| ==> KeyLinearizable(history, keys[j])
  {
    hide KeyLinearizable, Reported;
  }

  /**
   Gathers verdicts until one is negative, all are in or the timer fires; the searches report in the order of
   `arrivals`, and those that have not reported when the driver stops are killed.
   */
  method CheckParallel(parts: seq<History>, arrivals: seq<Arrival>, verbose: bool, ghost history: History,
                       ghost keys: seq<string>)
    returns (r: CheckResult)
    requires Timed(history) && |parts| == |keys| && Reports(|parts|, arrivals)
    requires forall j {:trigger parts[j]} :: 0 <= j < |parts| ==> parts[j] == SubHistory(history, keys[j])
    ensures r.Ok? ==> forall j {:trigger keys[j]} :: 0 <= j < |keys| ==> KeyLinearizable(history, keys[j])
    ensures r.Illegal? ==> !forall j {:trigger keys[j]} :: 0 <= j < |keys| ==> KeyLinearizable(history, keys[j])
    ensures r.Unknown? ==> TimerFired in arrivals
    ensures r.Waiting? ==> TimerFired !in arrivals && (parts == [] || Reported(arrivals, |arrivals|) < Ids(|parts|))
    ensures parts == [] && TimerFired !in arrivals ==> r.Waiting?
  {
    hide KeyLinearizable, Timed, SubHistory, Reported, Reports, Ids, Gathered;
    NothingYet(history, keys, arrivals);
    var ok, count := true, 0;
    for k := 0 to |arrivals|
      invariant TimerFired !in arrivals[..k] && Reported(arrivals, k) <= Ids(|parts|)
      invariant count == k == |Reported(arrivals, k)| && (k > 0 ==> count < |parts|)
      invariant Gathered(history, keys, arrivals, k, ok)
    {
      match arrivals[k] {
        case Finished(j) =>
          ReportedStep(|parts|, arrivals, k);
          var result := CheckKey(parts[j], history, keys[j]);
          GatherOne(history, keys, arrivals, k, ok, result);
          count := count + 1;
          ok := ok && result;
          if !ok && !verbose {
            NotAll(history, keys, arrivals, k + 1);
            return Illegal;
          }
          if count >= |parts| {
            AllReported(|parts|, Reported(arrivals, k + 1));
            GatheredAll(history, keys, arrivals, k + 1, ok);
            return if ok then Ok else Illegal;
          }
        case TimerFired =>
          if !ok { NotAll(history, keys, arrivals, k); }
          return if ok then Unknown else Illegal;
      }
    }
    assert arrivals[..|arrivals|] == arrivals;
    if parts != [] { StillMissing(|parts|, Reported(arrivals, |arrivals|)); }
    return Waiting;
  }

  /**
   Decides whether the store explains the whole history: whatever order the searches end in, a verdict is the
   right one, and without a verdict the timer fired, a search is still running or there was nothing to check.
   */
  method CheckOperations(history: History, arrivals: seq<Arrival>, verbose: bool) returns (r: CheckResult)
    requires Timed(history) && Reports(|Keys(history)|, arrivals)
    ensures r.Ok? ==> Linearizable(STORE_MODEL, ProblemOfHistory(history))
    ensures r.Illegal? ==> !Linearizable(STORE_MODEL, ProblemOfHistory(history))
    ensures r.Unknown? ==> TimerFired in arrivals
    ensures r.Waiting? ==>
      TimerFired !in arrivals && (history == [] || Reported(arrivals, |arrivals|) < Ids(|Keys(history)|))
    ensures history == [] && TimerFired !in arrivals ==> r.Waiting?
  {
    var parts, keys := Partition(history);
    Locality(history);
    OnlyTheseKeys(history, keys);
    KeyCount(keys, Keys(history));
    if history != [] { assert history[0].input.key in Keys(history); }
    hide *;
    r := CheckParallel(parts, arrivals, verbose, history, keys);
  }

  lemma {:induction false} KeyCount(keys: seq<string>, s: set<string>)
    requires InOrder(keys) && forall key {:trigger key in keys} :: key in keys <==> key in s
    ensures |keys| == |s|
  {
    if keys == [] {
      assert s == {} by {
        assert forall key :: key in s ==> key in keys;
      }
    } else {
      var last, rest := keys[|keys| - 1], keys[..|keys| - 1];
      forall i | 0 <= i < |rest| ensures rest[i] != last { LessTotal(last, last); }
      assert keys == rest + [last];
      assert last in keys;
      assert forall key :: key in keys <==> key in rest || key == last;
      KeyCount(rest, s - {last});
    }
  }
}
