/**
 What the handlers have to do, beside what they must not: votes are granted, commit indexes are raised and
 followed, snapshots are handed on, and the next index to send from is found.
 */
module RaftResponses {
  import opened Service
  import opened RaftServer
  import opened RaftCluster
  import opened RaftHistory
  import opened RaftInvariant
  import opened RaftElection
  import opened RaftSafety
  import opened RaftTheorems
  import opened RaftInstalls
  import Rebalance

  // ----- Votes -----

  /** One of a set of replicas has a log that all the others find up to date. */
  lemma {:induction false} MostUpToDate(nodes: seq<Node>, q: set<int>) returns (m: int)
    requires q != {} && forall p {:trigger p in q} :: p in q ==> 0 <= p < |nodes| && nodes[p].rf.log != []
    ensures m in q
    ensures forall p {:trigger p in q} :: p in q ==> CandidateUpToDate(nodes[p].rf, MakeVoteArgs(nodes[m].rf))
    decreases |q|
  {
    m := Rebalance.Member(q);
    if q != {m} {
      var first, rest := m, q - {m};
      assert forall p :: p in rest ==> p in q;
      var best := MostUpToDate(nodes, rest);
      if !CandidateUpToDate(nodes[best].rf, MakeVoteArgs(nodes[first].rf)) { m := best; }
      assert forall p :: p in q ==> p == first || p in rest;
    }
  }

  /** The replica has no vote of that term to anyone else. */
  predicate FreeFor(rf: Server, term: int, m: int) {
    term > rf.currentTerm || (term == rf.currentTerm && (rf.votedFor == -1 || rf.votedFor == m))
  }

  /**
   In every reachable cluster any set of replicas has a member that all the others would vote for, in any term in
   which they are free to, and again when asked again.
   */
  lemma CanBeElected(run: seq<Cluster>, k: nat, q: set<int>) returns (m: int)
    requires ServedRun(run) && k < |run| && q != {} && q <= Range(|run[k].nodes|)
    ensures m in q && run[k].nodes[m].rf.log != []
    ensures forall p, term {:trigger FreeFor(run[k].nodes[p].rf, term, m)} ::
      p in q && FreeFor(run[k].nodes[p].rf, term, m) ==>
        && run[k].nodes[p].rf.log != []
        && var (rf, r) := HandleVote(run[k].nodes[p].rf,
                                     MakeVoteArgs(run[k].nodes[m].rf).(term := term, candidate := m));
           r == VoteReply(term, true) && rf.currentTerm == term && rf.votedFor == m && rf.log == run[k].nodes[p].rf.log
  {
    hide ServedRun;
    forall p | p in q
      ensures run[k].nodes[p].rf.log != []
    {
      NeverOutOfBounds(run, k, p, Crash);
    }
    m := MostUpToDate(run[k].nodes, q);
  }

  /**
   A candidate counts every vote of its term it gets, and leads as soon as they are a majority: it then sends everyone
   what follows its log, and knows of nobody what they have.
   */
  lemma CountsVotes(run: seq<Cluster>, k: nat, s: int, from: int, r: VoteReply)
    requires ServedRun(run) && k + 1 < |run| && run[k].nodes != [] && 0 <= s < |run[k].nodes|
    requires NextBy(run[k], run[k + 1], s, OnVoteAnswer(from, run[k].nodes[s].rf.currentTerm, r))
    requires run[k].nodes[s].rf.role.Candidate? && r == VoteReply(run[k].nodes[s].rf.currentTerm, true)
    ensures var rf, rf2 := run[k].nodes[s].rf, run[k + 1].nodes[s].rf;
      && rf2.votesNum == rf.votesNum + 1 && rf2.currentTerm == rf.currentTerm && rf2.log == rf.log
      && (rf2.role.Leader? <==> rf.votesNum + 1 > |run[k].nodes| / 2)
      && (rf2.role.Leader? ==>
            && |rf2.nextIndex| == |rf2.matchIndex| == rf.peers
            && forall p {:trigger rf2.nextIndex[p]} {:trigger rf2.matchIndex[p]} :: 0 <= p < rf.peers ==>
                 rf2.nextIndex[p] == LastLogIndex(rf) + 1 && rf2.matchIndex[p] == -1)
  {
    hide Tolerates;
  }

  // ----- Terms -----

  /** The term a step hears of, 0 if of none. */
  function Heard(a: Action): int {
    match a
    case OnVote(v) => v.term
    case OnVoteAnswer(_, _, r) => r.term
    case OnAppend(args) => args.term
    case OnAppendAnswer(_, _, r) => r.term
    case OnSnapshot(args) => args.term
    case OnSnapshotAnswer(_, _, t) => t
    case _ => 0
  }

  /**
   A replica is always in the highest term it has stood in or heard of. Hearing of a newer one it follows; a candidate
   that hears a leader of its own term follows, too.
   */
  lemma TermsAreHeard(run: seq<Cluster>, k: nat, s: int, a: Action)
    requires ServedRun(run) && k + 1 < |run| && NextBy(run[k], run[k + 1], s, a)
    ensures var rf, rf2 := run[k].nodes[s].rf, run[k + 1].nodes[s].rf;
      && rf2.currentTerm == (if a.Timeout? then rf.currentTerm + 1 else Max(rf.currentTerm, Heard(a)))
      && (Heard(a) > rf.currentTerm ==>
            rf2.role.Follower? && (rf2.votedFor == -1 || (a.OnVote? && rf2.votedFor == a.vote.candidate)))
      && (a.OnAppend? && a.append.term == rf.currentTerm && rf.role.Candidate? ==> rf2.role.Follower?)
  {
    hide Merge, CountReplica, BackedUpNext, Fold, SameTermFirst, HoldsEntry, MakeAppendArgs, CandidateUpToDate, Range,
      Untrimmed, Tolerates;
    TermNat(run, k, s);
  }

  lemma TermNat(run: seq<Cluster>, k: nat, s: int)
    requires ServedRun(run) && k < |run| && 0 <= s < |run[k].nodes|
    ensures 0 <= run[k].nodes[s].rf.currentTerm
  {
    hide ServedRun;
    var l := LogOf(run, k, s);
    assert l != [] ==> 1 <= l[|l| - 1].term;
  }

  // ----- Where a message comes from -----

  /** Whatever is in the network was sent by an earlier step. */
  lemma {:induction false} SentBefore(run: seq<Cluster>, k: nat, m: Message) returns (i: nat, s: int, a: Action)
    requires Run(run) && k < |run| && m in run[k].net
    ensures i < k && NextBy(run[i], run[i + 1], s, a) && m in Step(|run[i].nodes|, s, run[i].nodes[s], a).1
  {
    hide Step, Enabled, InBounds;
    assert k > 0;
    if m in run[k - 1].net {
      i, s, a := SentBefore(run, k - 1, m);
    } else {
      assert Next(run[k - 1], run[k - 1 + 1]);
      i := k - 1;
      s, a :| NextBy(run[k - 1], run[k], s, a);
    }
  }

  /** A request was built by the leader it names, from the state it had then. */
  lemma RequestSent(run: seq<Cluster>, k: nat, to: int, a: AppendArgs) returns (i: nat)
    requires Run(run) && k < |run| && AppendRequest(to, a) in run[k].net
    ensures i < k && NextBy(run[i], run[i + 1], a.leader, Send(to))
    ensures var rf := run[i].nodes[a.leader].rf;
      rf.nextIndex[to] - 1 >= rf.lastIncludedIndex && a == MakeAppendArgs(rf, to)
  {
    hide Run;
    var s, step;
    i, s, step := SentBefore(run, k, AppendRequest(to, a));
  }

  /** An answer was given by the replica it names, in the state it had then. */
  lemma AnswerSent(run: seq<Cluster>, k: nat, from: int, to: int, a: AppendArgs, r: AppendReply) returns (i: nat)
    requires Run(run) && k < |run| && AppendAnswer(from, to, a, r) in run[k].net
    ensures i < k && NextBy(run[i], run[i + 1], from, OnAppend(a))
    ensures r == HandleAppend(run[i].nodes[from].rf, a).1
  {
    hide Run, HandleAppend;
    var s, step;
    i, s, step := SentBefore(run, k, AppendAnswer(from, to, a, r));
  }

  // ----- Following the leader's commit index -----

  /** The log the replica would have without compaction: in order of terms, none past its own. */
  ghost predicate Untrimmed(rf: Server, l: Log) {
    && 0 <= rf.lastIncludedIndex <= rf.lastApplied <= rf.commitIndex <= |l| == LastLogIndex(rf)
    && rf.log == [HEAD] + l[rf.lastIncludedIndex..] && rf.lastIncludedTerm == TermOf(l, rf.lastIncludedIndex)
    && Sorted(l) && TermOf(l, |l|) <= rf.currentTerm
    && (forall x {:trigger l[x]} :: 0 <= x < |l| ==> 1 <= l[x].term)
  }

  /** A leader sends from no further than the end of its log. */
  predicate NextInLog(rf: Server) {
    rf.role.Leader? ==> forall p {:trigger rf.nextIndex[p]} :: 0 <= p < |rf.nextIndex| ==>
      rf.nextIndex[p] <= LastLogIndex(rf) + 1
  }

  lemma LogOf(run: seq<Cluster>, k: nat, s: int) returns (l: Log)
    requires ServedRun(run) && k < |run| && 0 <= s < |run[k].nodes|
    ensures Shape(|run[k].nodes|, s, run[k].nodes[s]) && Untrimmed(run[k].nodes[s].rf, l)
    ensures NextInLog(run[k].nodes[s].rf)
  {
    hide Explains, ServedRun, Inv;
    var h, gs, _ := At(run, k);
    l := LogIn(run[k], h, gs, s);
  }

  lemma LogIn(c: Cluster, h: History, gs: seq<Shadow>, s: int) returns (l: Log)
    requires Inv(c, h, gs) && 0 <= s < |c.nodes|
    ensures Shape(|c.nodes|, s, c.nodes[s]) && Untrimmed(c.nodes[s].rf, l) && NextInLog(c.nodes[s].rf)
  {
    hide NodeOk, LeaderOk, CandidacyOk, VoteOk, MessageOk;
    assert NodeOk(h, |c.nodes|, s, c.nodes[s], gs[s]);
    NodeLog(h, |c.nodes|, s, c.nodes[s], gs[s]);
    l := gs[s].full;
  }

  lemma NodeLog(h: History, n: nat, s: int, node: Node, g: Shadow)
    requires AcksValid(h, n) && NodeOk(h, n, s, node, g)
    ensures Shape(n, s, node) && Untrimmed(node.rf, g.full) && NextInLog(node.rf)
  {
    hide Kept, CommittedPrefix, SnapshotsOk, DeliveryOk, CandidateRole, VotingOk, MatchOk;
    ViewEnds(node.rf, g);
    forall x | 0 <= x < |g.full| ensures 1 <= g.full[x].term { assert EntryOk(h, g.full, x); }
  }

  lemma TermInLog(rf: Server, l: Log, pos: nat)
    requires Untrimmed(rf, l) && pos < |rf.log|
    ensures TermAt(rf, pos) == TermOf(l, rf.lastIncludedIndex + pos)
    ensures pos > 0 ==> EntryAt(rf, rf.lastIncludedIndex + pos) == l[rf.lastIncludedIndex + pos - 1] == rf.log[pos]
  {
  }

  /** The request carries all that the log has from the next index on, and the commit index. */
  predicate Carries(rf: Server, peer: nat, a: AppendArgs)
    requires rf.log != [] && peer < |rf.nextIndex|
  {
    && a.term == rf.currentTerm && a.leader == rf.me && a.leaderCommit == rf.commitIndex
    && a.prevLogIndex + 1 == rf.nextIndex[peer] && HoldsEntry(rf, a.prevLogIndex, a.prevLogTerm)
    && a.prevLogIndex + |a.entries| == LastLogIndex(rf)
    && forall x {:trigger a.entries[x]} :: 0 <= x < |a.entries| ==> a.entries[x] == EntryAt(rf, a.prevLogIndex + 1 + x)
  }

  lemma BuiltCarries(rf: Server, l: Log, peer: nat)
    requires Untrimmed(rf, l) && rf.role.Leader? && NextInLog(rf) && peer < |rf.nextIndex|
    requires rf.nextIndex[peer] - 1 >= rf.lastIncludedIndex
    ensures Carries(rf, peer, MakeAppendArgs(rf, peer))
  {
  }

  /** Whatever request is on its way was sent by a leader of that term and carries its log and commit index. */
  lemma CarriedBySender(run: seq<Cluster>, k: nat, to: int, a: AppendArgs) returns (i: nat)
    requires ServedRun(run) && k < |run| && AppendRequest(to, a) in run[k].net
    ensures i < k && 0 <= a.leader < |run[i].nodes| && Shape(|run[i].nodes|, a.leader, run[i].nodes[a.leader])
    ensures run[i].nodes[a.leader].rf.role.Leader? && 0 <= to < |run[i].nodes|
    ensures Carries(run[i].nodes[a.leader].rf, to, a)
  {
    hide Tolerates, Step, Carries;
    i := RequestSent(run, k, to, a);
    var l := LogOf(run, i, a.leader);
    BuiltCarries(run[i].nodes[a.leader].rf, l, to);
  }

  /**
   A replica that accepts a request follows its commit index, as far as its log reached before, and no further.
   One whose log reached as far as the sender's, as with a heartbeat, has the sender's commit index, or a later one.
   */
  lemma FollowsCommit(run: seq<Cluster>, k: nat, s: int, a: AppendArgs) returns (i: nat)
    requires ServedRun(run) && k + 1 < |run| && NextBy(run[k], run[k + 1], s, OnAppend(a))
    requires HandleAppend(run[k].nodes[s].rf, a).1.success
    ensures i < k && 0 <= a.leader < |run[i].nodes| && run[i].nodes[a.leader].rf.role.Leader?
    ensures var rf, rf2, sender := run[k].nodes[s].rf, run[k + 1].nodes[s].rf, run[i].nodes[a.leader].rf;
      && rf2.commitIndex <= Max(rf.commitIndex, sender.commitIndex)
      && (rf2.commitIndex >= sender.commitIndex || rf2.commitIndex >= LastLogIndex(rf))
      && (LastLogIndex(sender) <= LastLogIndex(rf) ==> rf2.commitIndex == Max(rf.commitIndex, sender.commitIndex))
  {
    hide Merge, Tolerates;
    i := CarriedBySender(run, k, s, a);
    var _ := LogOf(run, i, a.leader);
  }

  // ----- Committing what a majority has -----

  /** No entry of the leader's own term past its commit index has reached a majority. */
  ghost predicate CountedUp(rf: Server)
    requires rf.log != [] && rf.peers == |rf.matchIndex|
  {
    rf.role.Leader? ==>
      forall index {:trigger Replicas(rf, index)} ::
        HoldsEntry(rf, index, rf.currentTerm) && Majority(rf.peers, Replicas(rf, index)) ==> index <= rf.commitIndex
  }

  /** Counting replicas finds the last entry of the current term that a majority has. */
  lemma CountFinds(rf: Server, l: Log, index: int)
    requires Untrimmed(rf, l) && rf.peers == |rf.matchIndex|
    requires HoldsEntry(rf, index, rf.currentTerm) && Majority(rf.peers, Replicas(rf, index))
    ensures index <= CountReplica(rf)
  {
    hide Replicas;
    TermInLog(rf, l, index - rf.lastIncludedIndex);
    TermInLog(rf, l, |rf.log| - 1);
    assert index > 0 ==> l[index - 1].term <= l[|l| - 1].term;
  }

  /** One replica, which has never led or had anything to apply, and no messages but its own requests for votes. */
  ghost predicate Idles(c: Cluster) {
    && |c.nodes| == 1 && !c.nodes[0].rf.role.Leader?
    && c.nodes[0].rf.commitIndex <= c.nodes[0].rf.lastApplied && c.nodes[0].rf.lastIncludedIndex == 0
    && c.nodes[0].hand.Empty? && c.nodes[0].batch.Idle? && c.nodes[0].pending == {}
    && forall m {:trigger m in c.net} :: m in c.net ==> m.VoteRequest? && m.vote.candidate == 0
  }

  /** A replica alone never asks anyone for a vote, and so never leads, nor applies anything. */
  lemma {:induction false} AloneNeverLeads(run: seq<Cluster>, k: nat)
    requires Run(run) && k < |run| && |run[0].nodes| == 1
    ensures Idles(run[k])
  {
    hide CountReplica, BackedUpNext, Merge, Fold, SameTermFirst, HoldsEntry, MakeAppendArgs, CandidateUpToDate, Range;
    if k == 0 {
      assert run[0].nodes[0] == Starts(run[0], 0);
    } else {
      AloneNeverLeads(run, k - 1);
      assert Next(run[k - 1], run[k - 1 + 1]);
    }
  }

  lemma OnlyItself(rf: Server, index: int)
    requires rf.peers == |rf.matchIndex| >= 2 && 0 <= rf.me < rf.peers
    requires forall p {:trigger rf.matchIndex[p]} :: 0 <= p < rf.peers && p != rf.me ==> rf.matchIndex[p] < index
    ensures !Majority(rf.peers, Replicas(rf, index))
  {
    assert Replicas(rf, index) == {rf.me};
  }

  /** Peers are known to have no more than the leader's log. */
  lemma MatchInLog(c: Cluster, h: History, gs: seq<Shadow>, s: int, p: int)
    requires Inv(c, h, gs) && 0 <= s < |c.nodes| && c.nodes[s].rf.role.Leader? && 0 <= p < |c.nodes| && p != s
    ensures Shape(|c.nodes|, s, c.nodes[s]) && c.nodes[s].rf.matchIndex[p] <= LastLogIndex(c.nodes[s].rf)
  {
    hide LeaderOk, CandidacyOk, VoteOk, MessageOk, AcksOk, LogOk, CommittedPrefix, SnapshotsOk, DeliveryOk, VotingOk,
      CandidateRole;
    assert NodeOk(h, |c.nodes|, s, c.nodes[s], gs[s]);
    ViewEnds(c.nodes[s].rf, gs[s]);
  }

  /** A step that adds no entry and learns nothing about others leaves nothing to commit. */
  lemma StillCounted(rf: Server, rf2: Server)
    requires rf.log != [] && rf2.log != [] && rf.peers == |rf.matchIndex| == rf2.peers == |rf2.matchIndex|
    requires CountedUp(rf) && rf.me == rf2.me
    requires rf2.role.Leader? ==>
      rf.role.Leader? && rf2.currentTerm == rf.currentTerm && rf.commitIndex <= rf2.commitIndex
    requires rf2.role.Leader? ==> forall p {:trigger rf2.matchIndex[p]} :: 0 <= p < rf.peers && p != rf.me ==>
      rf2.matchIndex[p] == rf.matchIndex[p]
    requires rf2.role.Leader? ==> forall index {:trigger HoldsEntry(rf2, index, rf.currentTerm)} ::
      rf2.commitIndex < index && HoldsEntry(rf2, index, rf.currentTerm) ==> HoldsEntry(rf, index, rf.currentTerm)
    ensures CountedUp(rf2)
  {
    if rf2.role.Leader? {
      forall index | HoldsEntry(rf2, index, rf2.currentTerm) && Majority(rf2.peers, Replicas(rf2, index))
        ensures index <= rf2.commitIndex
      {
        assert Replicas(rf2, index) == Replicas(rf, index);
      }
    }
  }

  lemma CountedHandle(node: Node, takeSnapshot: bool)
    requires node.hand.Holding? && node.rf.log != [] && InBounds(node, Handle(takeSnapshot))
    requires node.rf.peers == |node.rf.matchIndex| && CountedUp(node.rf)
    ensures CountedUp(HandleMessage(node, takeSnapshot).rf)
  {
    hide Fold, Replicas;
    StillCounted(node.rf, HandleMessage(node, takeSnapshot).rf);
  }

  /** On a new entry nobody else can have it; on winning, nothing is known of the others. */
  lemma CountedNew(c: Cluster, c2: Cluster, h: History, gs: seq<Shadow>, s: int, a: Action)
    requires Inv(c, h, gs) && NextBy(c, c2, s, a) && (a.Propose? || a.OnVoteAnswer?) && |c.nodes| >= 2
    requires CountedUp(c.nodes[s].rf)
    ensures CountedUp(c2.nodes[s].rf)
  {
    hide NodeOk, HistoryOk, MessageOk, Replicas;
    var rf, rf2 := c.nodes[s].rf, c2.nodes[s].rf;
    if a.OnVoteAnswer? && rf.role.Leader? {
      StillCounted(rf, rf2);
    } else if a.OnVoteAnswer? {
      if rf2.role.Leader? {
        var _ := LogIn(c, h, gs, s);
        forall index | index > rf2.commitIndex ensures !Majority(rf2.peers, Replicas(rf2, index)) {
          OnlyItself(rf2, index);
        }
      }
    } else if rf.role.Leader? {
      var last := LastLogIndex(rf2);
      forall p | 0 <= p < |c.nodes| && p != s ensures rf.matchIndex[p] < last { MatchInLog(c, h, gs, s, p); }
      OnlyItself(rf2, last);
      forall index | HoldsEntry(rf2, index, rf2.currentTerm) && Majority(rf2.peers, Replicas(rf2, index))
        ensures index <= rf2.commitIndex
      {
        assert HoldsEntry(rf, index, rf.currentTerm);
        SameReplicas(rf, rf2, index);
      }
    }
  }

  lemma SameReplicas(rf: Server, rf2: Server, index: int)
    requires rf.peers == rf2.peers == |rf.matchIndex| && rf.matchIndex == rf2.matchIndex && rf.me == rf2.me
    ensures Replicas(rf2, index) == Replicas(rf, index)
  {
  }

  /** Counting anew leaves nothing to commit. */
  lemma CountedAnswer(c: Cluster, c2: Cluster, h: History, gs: seq<Shadow>, s: int, a: Action)
    requires Inv(c, h, gs) && NextBy(c, c2, s, a) && (a.OnAppendAnswer? || a.OnSnapshotAnswer?)
    requires CountedUp(c.nodes[s].rf)
    ensures CountedUp(c2.nodes[s].rf)
  {
    hide NodeOk, HistoryOk, MessageOk, Replicas, CountReplica, BackedUpNext, Untrimmed;
    var rf, rf2 := c.nodes[s].rf, c2.nodes[s].rf;
    var l := LogIn(c, h, gs, s);
    if rf2.role.Leader? && rf2 != rf {
      var t := rf2.(commitIndex := rf.commitIndex);
      assert rf2.commitIndex == CountReplica(t);
      SameLog(rf, t, l);
      forall index | HoldsEntry(rf2, index, rf2.currentTerm) && Majority(rf2.peers, Replicas(rf2, index))
        ensures index <= rf2.commitIndex
      {
        SameReplicas(t, rf2, index);
        CountFinds(t, l, index);
      }
    }
  }

  lemma SameLog(rf: Server, rf2: Server, l: Log)
    requires Untrimmed(rf, l)
    requires rf2 == rf.(nextIndex := rf2.nextIndex, matchIndex := rf2.matchIndex)
    ensures Untrimmed(rf2, l)
  {
  }

  lemma CountedStep(c: Cluster, c2: Cluster, h: History, gs: seq<Shadow>, s: int, a: Action)
    requires Inv(c, h, gs) && NextBy(c, c2, s, a) && |c.nodes| >= 2 && CountedUp(c.nodes[s].rf)
    ensures CountedUp(c2.nodes[s].rf)
  {
    hide NodeOk, HistoryOk, MessageOk, CountedUp, HandleAppendReply, HandleSnapshotReply, HandleVoteReply, Start,
      HandleMessage, MakeAppendArgs, CandidateUpToDate, Merge, SameTermFirst, Range, Replicas;
    var rf, rf2 := c.nodes[s].rf, c2.nodes[s].rf;
    if a.OnAppendAnswer? || a.OnSnapshotAnswer? {
      CountedAnswer(c, c2, h, gs, s, a);
    } else if a.Propose? || a.OnVoteAnswer? {
      CountedNew(c, c2, h, gs, s, a);
    } else if a.Handle? {
      CountedHandle(c.nodes[s], a.takeSnapshot);
    } else {
      if a.OnAppend? && rf.role.Leader? { LeaderIsTheSender(c, h, gs, s, a.append); }
      StillCounted(rf, rf2);
    }
  }

  /** A leader gets no request of its own term. */
  lemma LeaderIsTheSender(c: Cluster, h: History, gs: seq<Shadow>, s: int, a: AppendArgs)
    requires Inv(c, h, gs) && 0 <= s < |c.nodes| && c.nodes[s].rf.role.Leader? && AppendRequest(s, a) in c.net
    ensures a.term != c.nodes[s].rf.currentTerm
  {
    hide Body, LeaderOk, CandidacyOk, VoteOk, CommittedPrefix;
    assert NodeOk(h, |c.nodes|, s, c.nodes[s], gs[s]) && MessageOk(h, c.nodes, AppendRequest(s, a));
    LeaderName(h, |c.nodes|, s, c.nodes[s], gs[s].full);
  }

  /** At every moment a leader has committed whatever of its own term it knows a majority to have. */
  lemma {:induction false} CommitsWhatMajorityHas(run: seq<Cluster>, k: nat, s: int)
    requires ServedRun(run) && k < |run| && 0 <= s < |run[k].nodes|
    ensures Shape(|run[k].nodes|, s, run[k].nodes[s]) && CountedUp(run[k].nodes[s].rf)
  {
    hide Explains, Inv, CountedUp, NextBy, Init, Tolerates, Untrimmed;
    SameSize(run, k);
    var _ := LogOf(run, k, s);
    if |run[0].nodes| == 1 {
      AloneNeverLeads(run, k);
      NotLeading(run[k].nodes[0].rf);
    } else if k == 0 {
      FreshCounted(run[0], s);
    } else {
      SameSize(run, k - 1);
      assert Next(run[k - 1], run[k - 1 + 1]);
      var q, a :| NextBy(run[k - 1], run[k], q, a);
      CommitsWhatMajorityHas(run, k - 1, s);
      OthersStay(run[k - 1], run[k], q, a);
      if q == s {
        var h, gs, _ := At(run, k - 1);
        CountedStep(run[k - 1], run[k], h, gs, s, a);
      }
    }
  }

  lemma NotLeading(rf: Server)
    requires rf.log != [] && rf.peers == |rf.matchIndex| && !rf.role.Leader?
    ensures CountedUp(rf)
  {
  }

  lemma FreshCounted(c: Cluster, s: int)
    requires Init(c) && 0 <= s < |c.nodes|
    ensures CountedUp(c.nodes[s].rf)
  {
    assert c.nodes[s] == Starts(c, s);
  }

  // ----- Finding the next index -----

  /** A refusal that reached the leader while it is still at the probe it answers. */
  ghost predicate Refused(c: Cluster, s: int, from: int, a: AppendArgs, r: AppendReply) {
    && 0 <= s < |c.nodes| && 0 <= from < |c.nodes| && AppendAnswer(from, s, a, r) in c.net
    && r.inconsistent && !r.success && r.term <= c.nodes[s].rf.currentTerm == a.term && c.nodes[s].rf.role.Leader?
    && |c.nodes[s].rf.nextIndex| == |c.nodes| && c.nodes[s].rf.nextIndex[from] == a.prevLogIndex + 1
  }

  /** The next index a leader goes to on a refusal. */
  function NextAfter(rf: Server, from: nat, a: AppendArgs, r: AppendReply): int
    requires rf.log != [] && rf.peers == |rf.matchIndex| == |rf.nextIndex| && from < rf.peers
  {
    HandleAppendReply(rf, from, a, r).nextIndex[from]
  }

  lemma NextIsBackedUp(rf: Server, from: nat, a: AppendArgs, r: AppendReply)
    requires rf.log != [] && rf.peers == |rf.matchIndex| == |rf.nextIndex| && from < rf.peers
    requires r.inconsistent && !r.success && r.term <= rf.currentTerm == a.term && rf.role.Leader?
    ensures NextAfter(rf, from, a, r) == BackedUpNext(rf, from, r)
  {
    hide BackedUpNext, CountReplica;
  }

  /** What a refusal says, by the state of the replica that refused. */
  lemma RefusalMeans(rf: Server, l: Log, a: AppendArgs)
    requires Untrimmed(rf, l) && HandleAppend(rf, a).1.inconsistent
    ensures var r := HandleAppend(rf, a).1;
      && (a.prevLogIndex < rf.lastIncludedIndex ==> r.xTerm == -1 && r.xIndex == rf.lastIncludedIndex + 1)
      && (a.prevLogIndex > |l| ==> r.xTerm == -1 && r.xIndex == |l| + 1)
      && (rf.lastIncludedIndex <= a.prevLogIndex <= |l| ==>
            && r.xTerm == TermOf(l, a.prevLogIndex) != a.prevLogTerm
            && forall index {:trigger TermOf(l, index)} ::
                 Max(r.xIndex, rf.lastIncludedIndex) <= index <= a.prevLogIndex ==> TermOf(l, index) == r.xTerm)
  {
    hide Merge;
    var pos := a.prevLogIndex - rf.lastIncludedIndex;
    if 0 <= pos < |rf.log| {
      TermInLog(rf, l, pos);
      assert rf.log[0] == HEAD && (pos > 0 ==> SameTermFirst(rf, pos) > 0);
      var r := HandleAppend(rf, a).1;
      forall index | Max(r.xIndex, rf.lastIncludedIndex) <= index <= a.prevLogIndex
        ensures TermOf(l, index) == r.xTerm
      {
        TermInLog(rf, l, index - rf.lastIncludedIndex);
      }
    }
  }

  /**
   A refusal of the current probe for want of the entry. If the log was too short, the leader goes to just after its
   end, unless the peer is known to have more; that is lower, exactly when it was not known to have reached the
   probe. If the entry was compacted away, it goes to just after the snapshot, which is higher.
   */
  lemma BackupWithoutEntry(run: seq<Cluster>, k: nat, s: int, from: int, a: AppendArgs, r: AppendReply)
    returns (i: nat)
    requires ServedRun(run) && k < |run| && Refused(run[k], s, from, a, r) && r.xTerm == -1
    ensures i < k && NextBy(run[i], run[i + 1], from, OnAppend(a)) && Shape(|run[k].nodes|, s, run[k].nodes[s])
    ensures var rf, theirs := run[k].nodes[s].rf, run[i].nodes[from].rf;
      var next, next2, known := rf.nextIndex[from], NextAfter(rf, from, a, r), rf.matchIndex[from];
      if LastLogIndex(theirs) < a.prevLogIndex then
        next2 == Max(LastLogIndex(theirs), known) + 1 && (next2 < next <==> known < a.prevLogIndex)
      else
        a.prevLogIndex < theirs.lastIncludedIndex && next < next2 == Max(theirs.lastIncludedIndex, known) + 1
  {
    hide ServedRun, NextBy, Untrimmed, HandleAppendReply, NextAfter;
    i := AnswerFrom(run, k, s, from, a, r);
    var l := LogOf(run, k, s);
    var theirs := LogOf(run, i, from);
    NextIsBackedUp(run[k].nodes[s].rf, from, a, r);
    TermsNotNegative(run[i].nodes[from].rf, theirs, a.prevLogIndex);
    RefusalMeans(run[i].nodes[from].rf, theirs, a);
  }

  lemma TermsNotNegative(rf: Server, l: Log, index: int)
    requires Untrimmed(rf, l)
    ensures |l| == LastLogIndex(rf) && rf.log != [] && (0 <= index <= |l| ==> 0 <= TermOf(l, index))
    ensures 0 <= rf.lastIncludedIndex <= |l|
  {
  }

  lemma AnswerFrom(run: seq<Cluster>, k: nat, s: int, from: int, a: AppendArgs, r: AppendReply) returns (i: nat)
    requires ServedRun(run) && k < |run| && Refused(run[k], s, from, a, r)
    ensures i < k && NextBy(run[i], run[i + 1], from, OnAppend(a))
    ensures r == HandleAppend(run[i].nodes[from].rf, a).1
  {
    i := AnswerSent(run, k, from, s, a, r);
  }

  /**
   The next index is never moved past an entry the two logs agreed on; and where it goes after a conflict, the
   follower has an entry of another term, or one of the conflicting term that the leader has, too.
   */
  lemma BackupSkipsNothing(run: seq<Cluster>, k: nat, s: int, from: int, a: AppendArgs, r: AppendReply) returns (i: nat)
    requires ServedRun(run) && k < |run| && Refused(run[k], s, from, a, r)
    ensures i < k && NextBy(run[i], run[i + 1], from, OnAppend(a)) && Shape(|run[k].nodes|, s, run[k].nodes[s])
    ensures var rf, theirs := run[k].nodes[s].rf, run[i].nodes[from].rf;
      forall index {:trigger EntryAt(rf, index)} ::
        rf.lastIncludedIndex < index <= LastLogIndex(rf) && NextAfter(rf, from, a, r) <= index <= a.prevLogIndex
        ==> !HoldsEntry(theirs, index, EntryAt(rf, index).term)
    ensures var rf, theirs := run[k].nodes[s].rf, run[i].nodes[from].rf;
      var at := NextAfter(rf, from, a, r) - 1;
      r.xTerm != -1 && theirs.lastIncludedIndex < at && HoldsEntry(theirs, at, r.xTerm) ==> HoldsEntry(rf, at, r.xTerm)
  {
    hide ServedRun, NextBy, Untrimmed, HandleAppendReply, NextAfter, HandleAppend;
    i := AnswerFrom(run, k, s, from, a, r);
    var l := LogOf(run, k, s);
    var theirs := LogOf(run, i, from);
    var rf := run[k].nodes[s].rf;
    NextIsBackedUp(rf, from, a, r);
    forall index
      | rf.lastIncludedIndex < index <= LastLogIndex(rf) && NextAfter(rf, from, a, r) <= index <= a.prevLogIndex
      ensures !HoldsEntry(run[i].nodes[from].rf, index, EntryAt(rf, index).term)
    {
      SkippedDiffers(rf, l, run[i].nodes[from].rf, theirs, from, a, index);
    }
    if r.xTerm != -1 { SkipsTheTerm(rf, l, run[i].nodes[from].rf, theirs, from, a); }
  }

  /** A whole term the leader has nothing of is skipped at once. */
  lemma SkipsTheTerm(rf: Server, l: Log, theirs: Server, l2: Log, from: nat, a: AppendArgs)
    requires Untrimmed(rf, l) && Untrimmed(theirs, l2) && from < |rf.matchIndex|
    requires HandleAppend(theirs, a).1.inconsistent
    requires HandleAppend(theirs, a).1.xTerm != -1
    ensures var r := HandleAppend(theirs, a).1; var at := BackedUpNext(rf, from, r) - 1;
      theirs.lastIncludedIndex < at && HoldsEntry(theirs, at, r.xTerm) ==> HoldsEntry(rf, at, r.xTerm)
  {
    hide Merge;
    var r := HandleAppend(theirs, a).1;
    RefusalMeans(theirs, l2, a);
  }

  lemma SkippedDiffers(rf: Server, l: Log, theirs: Server, l2: Log, from: nat, a: AppendArgs, index: int)
    requires Untrimmed(rf, l) && Untrimmed(theirs, l2) && from < |rf.matchIndex|
    requires HandleAppend(theirs, a).1.inconsistent
    requires rf.lastIncludedIndex < index <= LastLogIndex(rf)
    requires BackedUpNext(rf, from, HandleAppend(theirs, a).1) <= index <= a.prevLogIndex
    ensures !HoldsEntry(theirs, index, EntryAt(rf, index).term)
  {
    hide HandleAppend;
    var r := HandleAppend(theirs, a).1;
    RefusalMeans(theirs, l2, a);
    TermInLog(rf, l, index - rf.lastIncludedIndex);
    if theirs.lastIncludedIndex <= index <= |l2| {
      TermInLog(theirs, l2, index - theirs.lastIncludedIndex);
      var e := LastOfTerm(rf.log, |rf.log|, r.xTerm);
      if e > 0 && r.xTerm != -1 {
        TermInLog(rf, l, e);
        assert l[rf.lastIncludedIndex + e - 1].term <= l[index - 1].term;
        assert l2[index - 1].term <= l2[a.prevLogIndex - 1].term;
      }
    }
  }

  // ----- Snapshots -----

  /** A snapshot past the commit index, from a leader of this term or a newer one, is handed on, and no other. */
  lemma HandsOnSnapshot(run: seq<Cluster>, k: nat, s: int, a: SnapshotArgs)
    requires ServedRun(run) && k + 1 < |run| && NextBy(run[k], run[k + 1], s, OnSnapshot(a))
    ensures var node, node2 := run[k].nodes[s], run[k + 1].nodes[s];
      && (Queued(node2, Install(a.lastIncludedIndex, a.lastIncludedTerm, a.data)) <==>
            || Queued(node, Install(a.lastIncludedIndex, a.lastIncludedTerm, a.data))
            || (a.term >= node.rf.currentTerm && a.lastIncludedIndex > node.rf.commitIndex))
      && node2.rf.currentTerm == Max(node.rf.currentTerm, a.term)
      && SnapshotAnswer(s, a.leader, a.lastIncludedIndex, node2.rf.currentTerm) in run[k + 1].net
  {
  }

  /** A service that compacts after a command leaves a snapshot of all up to it, and the rest of the log as it was. */
  lemma Compacts(run: seq<Cluster>, k: nat, s: int)
    requires ServedRun(run) && k + 1 < |run| && NextBy(run[k], run[k + 1], s, Handle(true)) && Due(run[k].nodes[s])
    ensures var rf, rf2, index := run[k].nodes[s].rf, run[k + 1].nodes[s].rf, run[k].nodes[s].hand.msg.index;
      && rf.lastIncludedIndex < index == rf2.lastIncludedIndex <= LastLogIndex(rf) == LastLogIndex(rf2)
      && rf2.log != [] && HoldsEntry(rf, index, rf2.lastIncludedTerm) && rf2.snapshot == run[k + 1].nodes[s].kv
      && forall x {:trigger EntryAt(rf2, x)} :: index < x <= LastLogIndex(rf) ==> EntryAt(rf2, x) == EntryAt(rf, x)
  {
    hide ServedRun, Fold, Untrimmed, AgreesWith;
    var _ := LogOf(run, k, s);
    DueIsNext(run, k, s);
  }

  lemma DueIsNext(run: seq<Cluster>, k: nat, s: int)
    requires ServedRun(run) && k < |run| && 0 <= s < |run[k].nodes| && Due(run[k].nodes[s])
    ensures var node := run[k].nodes[s];
      node.rf.lastIncludedIndex < node.hand.msg.index <= node.rf.commitIndex <= LastLogIndex(node.rf)
  {
    hide Proposed, Replay;
    var chosen := StateMachineSafety(run);
    var h, gs, _ := At(run, k);
    assert AgreesWith(run[0].start, run[k].nodes[s], chosen);
    HandInLog(run[k], h, gs, s);
  }

  lemma HandInLog(c: Cluster, h: History, gs: seq<Shadow>, s: int)
    requires Inv(c, h, gs) && 0 <= s < |c.nodes| && Due(c.nodes[s])
    ensures c.nodes[s].hand.msg.index <= c.nodes[s].rf.commitIndex
  {
    hide LeaderOk, CandidacyOk, VoteOk, MessageOk, CommittedPrefix, AcksOk, LogOk, SnapshotsOk, Standing, Replay;
    assert NodeOk(h, |c.nodes|, s, c.nodes[s], gs[s]);
  }

  /** Whenever it sends entries the leader counts its own log as reached. */
  lemma CountsItself(run: seq<Cluster>, k: nat, s: int, peer: int)
    requires ServedRun(run) && k + 1 < |run| && NextBy(run[k], run[k + 1], s, Send(peer))
    ensures var rf := run[k + 1].nodes[s].rf;
      && |rf.nextIndex| == |rf.matchIndex| > s
      && (rf.nextIndex[peer] - 1 >= rf.lastIncludedIndex ==>
            rf.nextIndex[s] - 1 == rf.matchIndex[s] == LastLogIndex(rf))
  {
    hide MakeAppendArgs, Tolerates;
  }
}
