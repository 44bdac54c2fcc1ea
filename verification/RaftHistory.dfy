/**
 What a run has fixed so far, kept beside the cluster for the proof only: who won each term and with
 which votes and log, how far each server has acknowledged each leader, every vote cast, and every
 command proposed.
 */
module RaftHistory {
  import opened Service
  import opened RaftServer
  import opened RaftCluster

  /** The leader of a term: its log when elected, its log now, and each voter's log when it voted. */
  datatype LeaderRec = LeaderRec(id: int, init: Log, log: Log, voters: map<int, Log>)

  datatype Vote = Vote(candidate: int, log: Log)

  /**
   Keys of `ack`, `cand` and `votes` are (server, term); `said` are the commands proposed so far, `start`
   is where every service starts.
   */
  datatype History = History(
    lead: map<int, LeaderRec>,
    ack: map<(int, int), int>,
    cand: map<(int, int), Log>,
    votes: map<(int, int), Vote>,
    said: set<Cmd>,
    start: Data)

  function NoHistory(start: Data): History {
    History(map[], map[], map[], map[], {}, start)
  }

  // ----- Logs -----

  /** Term at a position of an untrimmed log, positions counting from 1; 0 before the first entry. */
  function TermOf(l: Log, index: nat): int
    requires index <= |l|
  {
    if index == 0 then 0 else l[index - 1].term
  }

  /** The election restriction: candidate log `c` against voter log `v`. */
  predicate UpToDate(c: Log, v: Log) {
    TermOf(c, |c|) > TermOf(v, |v|) || (TermOf(c, |c|) == TermOf(v, |v|) && |c| >= |v|)
  }

  /** The prefix ending at k, whose last entry has term t, is a prefix of the log of term t's leader. */
  ghost predicate EntryOk(h: History, l: Log, k: nat)
    requires k < |l|
  {
    && 1 <= l[k].term && l[k].index == k + 1 && l[k].command in h.said
    && l[k].term in h.lead && l[..k + 1] <= h.lead[l[k].term].log
  }

  predicate Sorted(l: Log) {
    forall j, k {:trigger l[j], l[k]} :: 0 <= j < k < |l| ==> l[j].term <= l[k].term
  }

  ghost predicate GoodLog(h: History, l: Log) {
    Sorted(l) && forall k {:trigger EntryOk(h, l, k)} :: 0 <= k < |l| ==> EntryOk(h, l, k)
  }

  /** Log Matching: two logs that agree on the term at a position agree up to it. */
  lemma LogMatching(h: History, a: Log, b: Log, index: nat)
    requires GoodLog(h, a) && GoodLog(h, b)
    requires index <= |a| && index <= |b| && TermOf(a, index) == TermOf(b, index)
    ensures a[..index] == b[..index]
  {
    if index > 0 {
      assert EntryOk(h, a, index - 1) && EntryOk(h, b, index - 1);
    }
  }

  lemma GoodPrefix(h: History, l: Log, k: nat)
    requires GoodLog(h, l) && k <= |l|
    ensures GoodLog(h, l[..k])
  {
    var p := l[..k];
    forall j | 0 <= j < |p|
      ensures EntryOk(h, p, j)
    {
      assert EntryOk(h, l, j) && p[j] == l[j] && p[..j + 1] == l[..j + 1];
    }
  }

  // ----- Commitment -----

  ghost predicate Acked(h: History, s: int, t: int, i: int) {
    (s, t) in h.ack && i <= h.ack[(s, t)]
  }

  ghost function AckSet(h: History, n: nat, t: int, i: int): set<int> {
    set q | q in Range(n) && Acked(h, q, t, i)
  }

  /** A majority acknowledged the first i entries of term t's leader, the last of them of term t. */
  ghost predicate Committed(h: History, n: nat, t: int, i: int) {
    && t in h.lead
    && 1 <= i <= |h.lead[t].log| && h.lead[t].log[i - 1].term == t
    && Majority(n, AckSet(h, n, t, i))
  }

  ghost predicate PartOf(h: History, n: nat, p: Log, t: int, i: int) {
    Committed(h, n, t, i) && p <= h.lead[t].log[..i]
  }

  /** `p` was committed in some term up to `bound`. */
  ghost predicate CommittedPrefix(h: History, n: nat, p: Log, bound: int) {
    p == [] || exists t, i :: t <= bound && PartOf(h, n, p, t, i)
  }

  /** Leader t2 was elected without the first i entries of leader t. */
  ghost predicate Lacks(h: History, t2: int, t: int, i: int)
    requires t in h.lead && 0 <= i <= |h.lead[t].log|
  {
    t2 in h.lead && !(h.lead[t].log[..i] <= h.lead[t2].init)
  }

  /** `l` still holds the first i entries of leader t, or a later leader, up to `bound`, lacks them. */
  ghost predicate Holds(h: History, l: Log, t: int, i: int, bound: int)
    requires t in h.lead && 0 <= i <= |h.lead[t].log|
  {
    h.lead[t].log[..i] <= l || exists t2 :: t < t2 <= bound && Lacks(h, t2, t, i)
  }

  ghost predicate AcksValid(h: History, n: nat) {
    forall s, t {:trigger (s, t) in h.ack} :: (s, t) in h.ack ==>
      0 <= s < n && t in h.lead && 0 <= h.ack[(s, t)] <= |h.lead[t].log|
  }

  /** Everything server s acknowledged in terms up to `bound` is still in `l`, unless overruled. */
  ghost predicate Kept(h: History, n: nat, s: int, l: Log, bound: int)
    requires AcksValid(h, n)
  {
    forall t, i {:trigger Holds(h, l, t, i, bound)} ::
      (s, t) in h.ack && t <= bound && 0 <= i <= h.ack[(s, t)] ==> Holds(h, l, t, i, bound)
  }

  // ----- What every history satisfies -----

  /** A leader's log is what it was elected with, all of earlier terms, then entries of its own term. */
  predicate OwnTail(t: int, init: Log, log: Log) {
    && init <= log
    && forall k {:trigger log[k]} :: 0 <= k < |log| ==> if k < |init| then log[k].term < t else log[k].term == t
  }

  /** Voter v of leader t: its log when voting, what it had acknowledged before, and whom it voted for. */
  ghost predicate VoterOk(h: History, n: nat, t: int, v: int)
    requires AcksValid(h, n) && t in h.lead && v in h.lead[t].voters
  {
    var r := h.lead[t];
    && GoodLog(h, r.voters[v]) && UpToDate(r.init, r.voters[v])
    && Kept(h, n, v, r.voters[v], t - 1)
    && (v != r.id ==> (v, t) in h.votes && h.votes[(v, t)].candidate == r.id)
  }

  ghost predicate LeaderOk(h: History, n: nat, t: int)
    requires AcksValid(h, n) && t in h.lead
  {
    var r := h.lead[t];
    && 1 <= t && 0 <= r.id < n
    && r.id in r.voters && r.voters.Keys <= Range(n) && Majority(n, r.voters.Keys)
    && OwnTail(t, r.init, r.log) && GoodLog(h, r.log)
    && (r.id, t) !in h.votes
    && (r.id, t) in h.ack && h.ack[(r.id, t)] == |r.log|
    && forall v {:trigger VoterOk(h, n, t, v)} :: v in r.voters ==> VoterOk(h, n, t, v)
  }

  ghost predicate CandidacyOk(h: History, n: nat, c: int, t: int)
    requires AcksValid(h, n) && (c, t) in h.cand
  {
    var l := h.cand[(c, t)];
    && 0 <= c < n && 1 <= t && GoodLog(h, l)
    && TermOf(l, |l|) < t
    && (t !in h.lead ==> Kept(h, n, c, l, t - 1))
  }

  ghost predicate VoteOk(h: History, n: nat, v: int, t: int)
    requires AcksValid(h, n) && (v, t) in h.votes
  {
    var vote := h.votes[(v, t)];
    && 0 <= v < n && vote.candidate != v && (vote.candidate, t) in h.cand
    && GoodLog(h, vote.log) && UpToDate(h.cand[(vote.candidate, t)], vote.log)
    && (t !in h.lead ==> Kept(h, n, v, vote.log, t - 1))
  }

  ghost predicate HistoryOk(h: History, n: nat) {
    && AcksValid(h, n)
    && (forall t {:trigger LeaderOk(h, n, t)} :: t in h.lead ==> LeaderOk(h, n, t))
    && (forall c, t {:trigger CandidacyOk(h, n, c, t)} :: (c, t) in h.cand ==> CandidacyOk(h, n, c, t))
    && (forall v, t {:trigger VoteOk(h, n, v, t)} :: (v, t) in h.votes ==> VoteOk(h, n, v, t))
  }

  // ----- Leader Completeness -----

  lemma MajoritiesMeet(n: nat, a: set<int>, b: set<int>) returns (v: int)
    requires a <= Range(n) && b <= Range(n) && Majority(n, a) && Majority(n, b)
    ensures v in a && v in b
  {
    if a * b == {} {
      assert |a + b| == |a| + |b|;
      SubsetSize(a + b, Range(n));
      assert false;
    }
    v :| v in a * b;
  }

  lemma SubsetSize(a: set<int>, b: set<int>)
    requires a <= b
    ensures |a| <= |b|
  {
    assert b == a + (b - a);
  }

  /** Logs ending in the same term are prefixes of that term's leader, so the shorter is part of the longer. */
  lemma SameLastTerm(h: History, a: Log, b: Log)
    requires GoodLog(h, a) && GoodLog(h, b) && a != [] && |a| <= |b| && TermOf(a, |a|) == TermOf(b, |b|)
    ensures a <= b
  {
    assert EntryOk(h, a, |a| - 1) && EntryOk(h, b, |b| - 1);
    assert a[..|a| - 1 + 1] == a && b[..|b| - 1 + 1] == b;
  }

  /** A log ending in an entry of leader u holds all that u was elected with. */
  lemma HoldsInitOfLastLeader(h: History, l: Log)
    requires GoodLog(h, l) && l != []
    requires var u := TermOf(l, |l|); u in h.lead ==> OwnTail(u, h.lead[u].init, h.lead[u].log)
    ensures TermOf(l, |l|) in h.lead && h.lead[TermOf(l, |l|)].init <= l
  {
    var u := TermOf(l, |l|);
    assert EntryOk(h, l, |l| - 1) && l[..|l| - 1 + 1] == l;
    assert h.lead[u].log[|l| - 1] == l[|l| - 1];
  }

  /** An up-to-date log takes over a voter's prefix p that ends in term t, if all leaders in between have it. */
  lemma UpToDateBrings(h: History, p: Log, init: Log, l: Log)
    requires GoodLog(h, init) && GoodLog(h, l) && UpToDate(init, l)
    requires p != [] && p <= l
    requires var u := TermOf(init, |init|); u in h.lead && TermOf(p, |p|) < u ==>
               OwnTail(u, h.lead[u].init, h.lead[u].log) && p <= h.lead[u].init
    ensures p <= init
  {
    assert p[|p| - 1] == l[|p| - 1] && l[|p| - 1].term <= l[|l| - 1].term;
    assert EntryOk(h, l, |l| - 1);
    if TermOf(init, |init|) == TermOf(l, |l|) {
      SameLastTerm(h, l, init);
    } else {
      assert EntryOk(h, init, |init| - 1);
      HoldsInitOfLastLeader(h, init);
    }
  }

  /** A voter that acknowledged a commitment still had it when it voted, if no leader in between lacked it. */
  lemma VoterHadIt(h: History, n: nat, t: int, i: int, v: int, l: Log, bound: int)
    requires AcksValid(h, n) && t in h.lead && 0 <= i <= |h.lead[t].log|
    requires Acked(h, v, t, i) && t <= bound && Kept(h, n, v, l, bound)
    requires forall t1 {:trigger t1 in h.lead} :: t1 in h.lead && t < t1 <= bound ==>
      h.lead[t].log[..i] <= h.lead[t1].init
    ensures h.lead[t].log[..i] <= l
  {
    assert Holds(h, l, t, i, bound);
  }

  ghost predicate Electable(h: History, n: nat, t: int, init: Log, voters: map<int, Log>)
    requires AcksValid(h, n)
  {
    && voters.Keys <= Range(n) && Majority(n, voters.Keys)
    && GoodLog(h, init) && TermOf(init, |init|) < t
    && forall v {:trigger v in voters} :: v in voters ==>
         GoodLog(h, voters[v]) && UpToDate(init, voters[v]) && Kept(h, n, v, voters[v], t - 1)
  }

  /**
   The election restriction does its work: a log that a majority found up to date holds what was
   committed, given that all earlier leaders do.
   */
  lemma VotersBringCommitted(h: History, n: nat, t: int, i: int, t2: int, init: Log, voters: map<int, Log>)
    requires HistoryOk(h, n) && Committed(h, n, t, i) && t < t2 && Electable(h, n, t2, init, voters)
    requires forall t1 {:trigger t1 in h.lead} :: t1 in h.lead && t < t1 < t2 ==> h.lead[t].log[..i] <= h.lead[t1].init
    ensures h.lead[t].log[..i] <= init
  {
    hide GoodLog, Kept, UpToDate;
    var v := MajoritiesMeet(n, AckSet(h, n, t, i), voters.Keys);
    VoterHadIt(h, n, t, i, v, voters[v], t2 - 1);
    var p := h.lead[t].log[..i];
    var u := TermOf(init, |init|);
    assert u in h.lead ==> LeaderOk(h, n, u);
    UpToDateBrings(h, p, init, voters[v]);
  }

  /** Leader Completeness: whatever term t committed was in the log of every later leader when elected. */
  lemma LeaderCompleteness(h: History, n: nat, t: int, i: int, t2: int)
    requires HistoryOk(h, n) && Committed(h, n, t, i)
    requires t2 in h.lead && t < t2
    ensures h.lead[t].log[..i] <= h.lead[t2].init
    decreases t2 - t
  {
    forall t1 | t1 in h.lead && t < t1 < t2
      ensures h.lead[t].log[..i] <= h.lead[t1].init
    {
      LeaderCompleteness(h, n, t, i, t1);
    }
    LeaderElectable(h, n, t2);
    VotersBringCommitted(h, n, t, i, t2, h.lead[t2].init, h.lead[t2].voters);
  }

  lemma LeaderElectable(h: History, n: nat, t: int)
    requires HistoryOk(h, n) && t in h.lead
    ensures Electable(h, n, t, h.lead[t].init, h.lead[t].voters)
  {
    var r := h.lead[t];
    assert LeaderOk(h, n, t);
    assert r.init == r.log[..|r.init|];
    GoodPrefix(h, r.log, |r.init|);
    if r.init != [] { assert r.init[|r.init| - 1] == r.log[|r.init| - 1]; }
    forall v | v in r.voters
      ensures GoodLog(h, r.voters[v]) && UpToDate(r.init, r.voters[v]) && Kept(h, n, v, r.voters[v], t - 1)
    {
      assert VoterOk(h, n, t, v);
    }
  }

  /** A committed prefix is in the current log of every leader from its term on. */
  lemma CommittedInLeader(h: History, n: nat, p: Log, t: int)
    requires HistoryOk(h, n) && t in h.lead && CommittedPrefix(h, n, p, t)
    ensures p <= h.lead[t].log
  {
    if p != [] {
      var t1, i :| t1 <= t && PartOf(h, n, p, t1, i);
      if t1 < t {
        LeaderCompleteness(h, n, t1, i, t);
        assert LeaderOk(h, n, t);
      }
    }
  }

  /** Any two committed prefixes are prefixes of one another. */
  lemma CommittedComparable(h: History, n: nat, p: Log, q: Log, b1: int, b2: int)
    requires HistoryOk(h, n) && CommittedPrefix(h, n, p, b1) && CommittedPrefix(h, n, q, b2)
    ensures p <= q || q <= p
  {
    if p != [] && q != [] {
      var t1, i1 :| t1 <= b1 && PartOf(h, n, p, t1, i1);
      var t2, i2 :| t2 <= b2 && PartOf(h, n, q, t2, i2);
      if t1 <= t2 {
        CommittedInLeader(h, n, p, t2);
        assert q <= h.lead[t2].log;
      } else {
        CommittedInLeader(h, n, q, t1);
        assert p <= h.lead[t1].log;
      }
    }
  }
}
