/** What a leader commits, and when it has the leader's own term. */
module RaftInstalls {
  import opened Service
  import opened RaftServer
  import opened RaftCluster
  import opened RaftHistory
  import opened RaftInvariant
  import opened RaftElection
  import opened RaftDelivery
  import opened RaftSafety
  import opened RaftTheorems

  // ----- A leader has only older snapshots -----

  /** The snapshot is waiting for the service, or in its hand. */
  predicate Queued(node: Node, m: ApplyMsg) {
    m in node.pending || node.hand == Holding(m)
  }

  /** Every snapshot a leader still has to install is from before its term. */
  ghost predicate OlderInstalls(node: Node) {
    node.rf.role.Leader? ==>
      forall m {:trigger Queued(node, m)} :: Queued(node, m) && m.Install? ==> m.term < node.rf.currentTerm
  }

  /** A committed prefix of a term no leader has yet ends in an earlier term. */
  lemma CommittedEarlier(h: History, n: nat, p: Log, t: int)
    requires HistoryOk(h, n) && CommittedPrefix(h, n, p, t) && t !in h.lead && 1 <= t
    ensures TermOf(p, |p|) < t
  {
    hide CandidacyOk, VoteOk, LeaderOk;
    if p != [] {
      var u, i :| u <= t && PartOf(h, n, p, u, i);
      assert CommittedPrefix(h, n, p, u);
      CommittedGood(h, n, p, u);
    }
  }

  lemma QueuedOk(h: History, n: nat, s: int, node: Node, g: Shadow, m: ApplyMsg)
    requires AcksValid(h, n) && NodeOk(h, n, s, node, g) && Queued(node, m) && m.Install?
    ensures InstallOk(h, n, m, node.rf.currentTerm)
  {
    hide LogOk, AcksOk, CommittedPrefix, DeliveryOk, Standing;
  }

  /** A winner's term had no leader, so whatever snapshot it has was committed before. */
  lemma WinnerHasOlder(c: Cluster, h: History, gs: seq<Shadow>, s: int, from: int, r: VoteReply)
    requires Inv(c, h, gs) && 0 <= s < |c.nodes| && c.nodes[s].rf.role.Candidate?
    requires var t := c.nodes[s].rf.currentTerm;
      VoteAnswer(from, s, t, r) in c.net && from in c.nodes[s].awaiting && r.term == t && r.granted
    requires c.nodes[s].rf.votesNum + 1 > |c.nodes| / 2
    ensures forall m {:trigger Queued(c.nodes[s], m)} :: Queued(c.nodes[s], m) && m.Install? ==>
      m.term < c.nodes[s].rf.currentTerm
  {
    hide Body, Standing, LeaderOk, CandidacyOk, VoteOk;
    var n, node, g, t := |c.nodes|, c.nodes[s], gs[s], c.nodes[s].rf.currentTerm;
    assert NodeOk(h, n, s, node, g) && MessageOk(h, c.nodes, VoteAnswer(from, s, t, r));
    CountedVote(h, n, s, node, g, from);
    ElectionSafety(h, n, s, node, g.full);
    assert 1 <= t by { CandidateTerm(h, n, s, node, g.full); }
    forall m | Queued(node, m) && m.Install?
      ensures m.term < t
    {
      QueuedOk(h, n, s, node, g, m);
      var p :| SnapshotOf(h, n, p, m, t);
      CommittedEarlier(h, n, p, t);
    }
  }

  lemma CandidateTerm(h: History, n: nat, s: int, node: Node, l: Log)
    requires HistoryOk(h, n) && |node.rf.matchIndex| == n && Standing(h, n, s, node, l) && node.rf.role.Candidate?
    ensures 1 <= node.rf.currentTerm
  {
    hide LeaderOk, VoteOk;
    assert CandidacyOk(h, n, s, node.rf.currentTerm);
  }

  /** A leader takes in no snapshot of its own term: only it could have sent it. */
  lemma LeaderTakesNone(c: Cluster, h: History, gs: seq<Shadow>, s: int, a: SnapshotArgs)
    requires Inv(c, h, gs) && 0 <= s < |c.nodes| && c.nodes[s].rf.role.Leader? && SnapshotRequest(s, a) in c.net
    ensures a.term != c.nodes[s].rf.currentTerm
  {
    hide Body, LeaderOk, CandidacyOk, VoteOk, SnapshotOf;
    assert NodeOk(h, |c.nodes|, s, c.nodes[s], gs[s]) && MessageOk(h, c.nodes, SnapshotRequest(s, a));
    LeaderName(h, |c.nodes|, s, c.nodes[s], gs[s].full);
  }

  /** What a step does to role, term and snapshots of a replica that leads afterwards. */
  lemma StaysLeader(n: nat, s: int, node: Node, c: Cluster, a: Action)
    requires Shape(n, s, node) && InBounds(node, a)
    requires n == |c.nodes| && 0 <= s < n && c.nodes[s] == node && Enabled(c, s, a)
    requires Step(n, s, node, a).0.rf.role.Leader? && !a.OnVoteAnswer? && !a.OnSnapshot?
    ensures var node2 := Step(n, s, node, a).0;
      && node.rf.role.Leader? && node2.rf.currentTerm == node.rf.currentTerm
      && forall m {:trigger Queued(node2, m)} :: Queued(node2, m) && m.Install? ==> Queued(node, m)
  {
    hide Merge, CountReplica, BackedUpNext, Fold, SameTermFirst, HoldsEntry, MakeAppendArgs, CandidateUpToDate, Range;
  }

  lemma OlderStep(c: Cluster, c2: Cluster, h: History, gs: seq<Shadow>, s: int, a: Action)
    requires Inv(c, h, gs) && NextBy(c, c2, s, a) && OlderInstalls(c.nodes[s])
    ensures OlderInstalls(c2.nodes[s])
  {
    hide NodeOk, HistoryOk, MessageOk, HandleAppend, HandleAppendReply, HandleSnapshotReply, HandleVote, HandleMessage,
      MakeAppendArgs, Range, CandidateState;
    var n, node, node2 := |c.nodes|, c.nodes[s], c2.nodes[s];
    if node2.rf.role.Leader? {
      if a.OnVoteAnswer? {
        if !node.rf.role.Leader? { WinnerHasOlder(c, h, gs, s, a.from, a.voteReply); }
        assert forall m {:trigger Queued(node2, m)} :: Queued(node2, m) ==> Queued(node, m);
      } else if a.OnSnapshot? {
        LeaderTakesNone(c, h, gs, s, a.install);
        assert forall m {:trigger Queued(node2, m)} :: Queued(node2, m) ==> Queued(node, m);
      } else {
        StaysLeader(n, s, node, c, a);
      }
    }
  }

  /** In every run a leader only ever has snapshots from before its term still to install. */
  lemma {:induction false} OlderAlways(run: seq<Cluster>, k: nat, s: int)
    requires ServedRun(run) && k < |run| && 0 <= s < |run[k].nodes|
    ensures OlderInstalls(run[k].nodes[s])
  {
    hide Explains, Inv, OlderInstalls, NextBy, Init, Tolerates;
    if k == 0 {
      FreshOlder(run[0], s);
    } else {
      SameSize(run, k);
      SameSize(run, k - 1);
      assert Next(run[k - 1], run[k - 1 + 1]);
      var q, a :| NextBy(run[k - 1], run[k], q, a);
      OlderAlways(run, k - 1, s);
      OthersStay(run[k - 1], run[k], q, a);
      if q == s {
        var h, gs, _ := At(run, k - 1);
        OlderStep(run[k - 1], run[k], h, gs, s, a);
      }
    }
  }

  lemma OthersStay(c: Cluster, c2: Cluster, s: int, a: Action)
    requires NextBy(c, c2, s, a)
    ensures |c2.nodes| == |c.nodes| && forall q {:trigger c2.nodes[q]} :: 0 <= q < |c.nodes| && q != s ==>
      c2.nodes[q] == c.nodes[q]
  {
    hide Step, Enabled, InBounds;
  }

  lemma FreshOlder(c: Cluster, s: int)
    requires Init(c) && 0 <= s < |c.nodes|
    ensures OlderInstalls(c.nodes[s])
  {
    assert c.nodes[s] == Starts(c, s);
  }

  // ----- Exactly when -----

  /** The leader installs a snapshot it had in hand. */
  predicate Installs(node: Node, a: Action) {
    a.Handle? && node.hand.Holding? && node.hand.msg.Install?
  }

  lemma InstalledTerm(n: nat, s: int, node: Node, a: Action)
    requires Shape(n, s, node) && InBounds(node, a) && Installs(node, a)
    requires node.rf.commitIndex < Step(n, s, node, a).0.rf.commitIndex
    ensures var rf := Step(n, s, node, a).0.rf;
      && rf.log != [] && rf.commitIndex == rf.lastIncludedIndex && TermAt(rf, 0) == node.hand.msg.term
      && rf.currentTerm == node.rf.currentTerm
  {
    hide HoldsEntry;
  }

  /**
   An index a leader newly commits is in the logs or snapshots of a majority. It has the leader's own term exactly
   when it was not by installing a snapshot: what it counts is of its term, what it installs of an earlier one.
   */
  lemma OwnTermUnlessInstalled(run: seq<Cluster>, k: nat, s: int, a: Action) returns (q: set<int>, chosen: Log)
    requires ServedRun(run) && k + 1 < |run| && NextBy(run[k], run[k + 1], s, a)
    requires run[k].nodes[s].rf.role.Leader? && run[k + 1].nodes[s].rf.role.Leader?
    requires run[k].nodes[s].rf.commitIndex < run[k + 1].nodes[s].rf.commitIndex
    ensures Majority(|run[k + 1].nodes|, q) && q <= Range(|run[k + 1].nodes|)
    ensures AgreesWith(run[0].start, run[k + 1].nodes[s], chosen)
    ensures forall p {:trigger run[k + 1].nodes[p]} :: p in q ==>
      Retains(run[0].start, run[k + 1].nodes[p].rf, chosen[..run[k + 1].nodes[s].rf.commitIndex])
    ensures var rf := run[k + 1].nodes[s].rf;
      && 0 <= rf.commitIndex - rf.lastIncludedIndex < |rf.log|
      && TermAt(rf, rf.commitIndex - rf.lastIncludedIndex) <= rf.currentTerm
      && (TermAt(rf, rf.commitIndex - rf.lastIncludedIndex) == rf.currentTerm <==> !Installs(run[k].nodes[s], a))
  {
    hide ServedRun, Step, InBounds, Retains, AgreesWith;
    q, chosen := MajorityHoldsCommitted(run, k + 1, s);
    if Installs(run[k].nodes[s], a) {
      OlderAlways(run, k, s);
      InstalledTerm(|run[k].nodes|, s, run[k].nodes[s], a);
      assert Queued(run[k].nodes[s], run[k].nodes[s].hand.msg);
    } else {
      LeaderCommitsBy(run, k, s, a);
      var _ := CommittedByMajority(run, k, s, a);
    }
  }
}
