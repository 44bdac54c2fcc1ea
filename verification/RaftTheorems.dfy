/** What Raft promises, read off the invariant for every run. */
module RaftTheorems {
  import opened Service
  import opened RaftServer
  import opened RaftCluster
  import opened RaftHistory
  import opened RaftInvariant
  import opened RaftElection
  import opened RaftReplication
  import opened RaftDelivery
  import opened RaftSafety

  /** The replica's entry at an index its log still holds. */
  function EntryAt(rf: Server, index: int): Entry
    requires rf.lastIncludedIndex < index <= LastLogIndex(rf)
  {
    rf.log[index - rf.lastIncludedIndex]
  }

  lemma RunPrefix(run: seq<Cluster>, j: nat)
    requires ServedRun(run) && j < |run|
    ensures ServedRun(run[..j + 1])
  {
    var r := run[..j + 1];
    forall i | 0 <= i < |r| - 1
      ensures Next(r[i], r[i + 1])
    {
      assert Next(run[i], run[i + 1]);
    }
  }

  /** The invariant, with a history that explains everything up to moment j. */
  lemma At(run: seq<Cluster>, j: nat) returns (h: History, gs: seq<Shadow>, chosen: Log)
    requires ServedRun(run) && j < |run|
    ensures Inv(run[j], h, gs) && Explains(run[..j + 1], h, gs, chosen) && h.start == run[0].start
  {
    RunPrefix(run, j);
    h, gs, chosen := ExplainRun(run[..j + 1]);
  }

  /** Election Safety: two leaders of the same term, at any two moments, are the same replica. */
  lemma OneLeaderPerTerm(run: seq<Cluster>, i: nat, j: nat, a: int, b: int)
    requires ServedRun(run) && i < |run| && j < |run| && 0 <= a < |run[i].nodes| && 0 <= b < |run[j].nodes|
    requires run[i].nodes[a].rf.role.Leader? && run[j].nodes[b].rf.role.Leader?
    requires run[i].nodes[a].rf.currentTerm == run[j].nodes[b].rf.currentTerm
    ensures a == b
  {
    hide AgreesWith, CommittedPrefix, Inv;
    SameSize(run, i);
    SameSize(run, j);
    var h, gs, chosen := ExplainRun(run);
    assert Recorded(h, |run[0].nodes|, chosen, a, run[i].nodes[a]);
    assert Recorded(h, |run[0].nodes|, chosen, b, run[j].nodes[b]);
  }

  /** No two replicas, at any two moments, differ at an index both consider committed and still hold. */
  lemma CommittedEntriesAgree(run: seq<Cluster>, i: nat, j: nat, a: int, b: int, index: int)
    requires ServedRun(run) && i < |run| && j < |run| && 0 <= a < |run[i].nodes| && 0 <= b < |run[j].nodes|
    requires run[i].nodes[a].rf.lastIncludedIndex < index <= run[i].nodes[a].rf.commitIndex
    requires run[j].nodes[b].rf.lastIncludedIndex < index <= run[j].nodes[b].rf.commitIndex
    ensures index <= LastLogIndex(run[i].nodes[a].rf) && index <= LastLogIndex(run[j].nodes[b].rf)
    ensures EntryAt(run[i].nodes[a].rf, index) == EntryAt(run[j].nodes[b].rf, index)
  {
    hide AgreesWith, ServedRun, Proposed;
    var chosen := StateMachineSafety(run);
    AgreesAt(run[0].start, run[i].nodes[a], chosen, index - 1);
    AgreesAt(run[0].start, run[j].nodes[b], chosen, index - 1);
  }

  /** Two replicas whose snapshots end at the same index hold the same snapshot. */
  lemma SnapshotsAgree(run: seq<Cluster>, i: nat, j: nat, a: int, b: int)
    requires ServedRun(run) && i < |run| && j < |run| && 0 <= a < |run[i].nodes| && 0 <= b < |run[j].nodes|
    requires run[i].nodes[a].rf.lastIncludedIndex == run[j].nodes[b].rf.lastIncludedIndex
    ensures run[i].nodes[a].rf.snapshot == run[j].nodes[b].rf.snapshot
  {
    hide ServedRun, Proposed, Replay;
    var chosen := StateMachineSafety(run);
    assert AgreesWith(run[0].start, run[i].nodes[a], chosen) && AgreesWith(run[0].start, run[j].nodes[b], chosen);
  }

  /** What the trimmed log shows of the untrimmed one. */
  lemma ShadowView(h: History, n: nat, s: int, node: Node, g: Shadow, chosen: Log)
    requires AcksValid(h, n) && NodeOk(h, n, s, node, g) && g.high <= |g.full| && g.full[..g.high] <= chosen
    ensures LastLogIndex(node.rf) == |g.full| && 0 <= node.rf.lastIncludedIndex <= g.high
    ensures forall x {:trigger g.full[x]} :: node.rf.lastIncludedIndex <= x < |g.full| ==>
      EntryAt(node.rf, x + 1) == g.full[x]
    ensures forall x {:trigger chosen[x]} :: 0 <= x < g.high ==> chosen[x] == g.full[x]
  {
    hide GoodLog, Kept, CommittedPrefix, SnapshotsOk, DeliveryOk, Standing;
    ViewEnds(node.rf, g);
  }

  /** Log and snapshot together are the log `whole`: the entries past the snapshot, and the fold of those before. */
  ghost predicate Shows(start: Data, rf: Server, whole: Log) {
    && 0 <= rf.lastIncludedIndex <= |whole| == LastLogIndex(rf)
    && (forall x {:trigger whole[x]} :: rf.lastIncludedIndex <= x < |whole| ==> EntryAt(rf, x + 1) == whole[x])
    && rf.snapshot == Replay(start, whole[..rf.lastIncludedIndex])
  }

  /** Every entry of p is in the log or in the snapshot. */
  ghost predicate Retains(start: Data, rf: Server, p: Log) {
    && |p| <= LastLogIndex(rf)
    && (forall x {:trigger p[x]} :: 0 <= x < |p| && rf.lastIncludedIndex <= x ==> EntryAt(rf, x + 1) == p[x])
    && (0 <= rf.lastIncludedIndex <= |p| ==> rf.snapshot == Replay(start, p[..rf.lastIncludedIndex]))
    && exists whole {:trigger Shows(start, rf, whole)} :: Shows(start, rf, whole) && p <= whole
  }

  lemma ShowsShadow(rf: Server, g: Shadow, p: Log)
    requires ViewOk(rf, g) && p <= g.full
    ensures Retains(g.start, rf, p)
  {
    hide Replay;
    ViewEnds(rf, g);
    assert Shows(g.start, rf, g.full);
    forall x | 0 <= x < |p| && rf.lastIncludedIndex <= x
      ensures EntryAt(rf, x + 1) == p[x]
    {
      assert p[x] == g.full[x];
    }
    if rf.lastIncludedIndex <= |p| { assert p[..rf.lastIncludedIndex] == g.full[..rf.lastIncludedIndex]; }
  }

  /** A moment of the run, a replica at it, and what the history at a later moment j says of both. */
  lemma AtNode(run: seq<Cluster>, i: nat, j: nat, a: int, b: int)
    returns (h: History, gs: seq<Shadow>, chosen: Log, n: nat)
    requires ServedRun(run) && i <= j < |run| && 0 <= a < |run[i].nodes| && 0 <= b < |run[j].nodes|
    ensures |run[i].nodes| == |run[j].nodes| == n == |gs|
    ensures HistoryOk(h, n) && NodeOk(h, n, b, run[j].nodes[b], gs[b]) && h.start == run[0].start
    ensures Recorded(h, n, chosen, a, run[i].nodes[a])
    ensures 0 <= gs[b].high <= |gs[b].full| && gs[b].full[..gs[b].high] <= chosen
    ensures a == b ==> run[i].nodes[a].rf.commitIndex <= gs[b].high
  {
    hide NodeOk, LeaderOk, CandidacyOk, VoteOk, MessageOk, Recorded;
    SameSize(run, i);
    SameSize(run, j);
    n := |run[0].nodes|;
    h, gs, chosen := At(run, j);
    var r := run[..j + 1];
    assert r[i].nodes[a] == run[i].nodes[a] && r[j] == run[j] == r[|r| - 1];
    assert NodeOk(h, n, b, run[j].nodes[b], gs[b]);
  }

  /**
   A committed entry is never truncated: at any later moment, crashes and compaction included, the
   replica has all it once considered committed, in its log or folded into its snapshot.
   */
  lemma NeverTruncated(run: seq<Cluster>, i: nat, j: nat, s: int) returns (chosen: Log)
    requires ServedRun(run) && i <= j < |run| && 0 <= s < |run[i].nodes|
    ensures |run[j].nodes| == |run[i].nodes|
    ensures AgreesWith(run[0].start, run[i].nodes[s], chosen)
    ensures Retains(run[0].start, run[j].nodes[s].rf, chosen[..run[i].nodes[s].rf.commitIndex])
  {
    hide LeaderOk, CandidacyOk, VoteOk, CommittedPrefix, LogOk, AcksOk, SnapshotsOk, DeliveryOk, Standing, AgreesWith,
      Retains;
    SameSize(run, i);
    SameSize(run, j);
    var h, gs, n;
    h, gs, chosen, n := AtNode(run, i, j, s, s);
    AgreesBounds(run[0].start, run[i].nodes[s], chosen);
    ShowsShadow(run[j].nodes[s].rf, gs[s], chosen[..run[i].nodes[s].rf.commitIndex]);
  }

  /**
   Leader Completeness: whatever a replica considered committed in some term is held, in its log or
   folded into its snapshot, by every leader of that or a later term from then on.
   */
  lemma LeaderHoldsCommitted(run: seq<Cluster>, i: nat, j: nat, a: int, b: int) returns (chosen: Log)
    requires ServedRun(run) && i <= j < |run| && 0 <= a < |run[i].nodes| && 0 <= b < |run[j].nodes|
    requires run[j].nodes[b].rf.role.Leader?
    requires run[i].nodes[a].rf.currentTerm <= run[j].nodes[b].rf.currentTerm
    ensures AgreesWith(run[0].start, run[i].nodes[a], chosen)
    ensures Retains(run[0].start, run[j].nodes[b].rf, chosen[..run[i].nodes[a].rf.commitIndex])
  {
    hide LeaderOk, CandidacyOk, VoteOk, CommittedPrefix, LogOk, AcksOk, SnapshotsOk, DeliveryOk, Standing, AgreesWith,
      Retains;
    var h, gs, n;
    h, gs, chosen, n := AtNode(run, i, j, a, b);
    var rf := run[i].nodes[a].rf;
    AgreesBounds(run[0].start, run[i].nodes[a], chosen);
    LeaderHasPrefix(h, n, b, run[j].nodes[b], gs[b], chosen[..rf.commitIndex], rf.currentTerm);
    ShowsShadow(run[j].nodes[b].rf, gs[b], chosen[..rf.commitIndex]);
  }

  /**
   At every moment, what a replica considers committed is held, in log or snapshot, by a majority, whatever
   made it commit: counted replicas, a leader's message, an installed snapshot.
   */
  lemma MajorityHoldsCommitted(run: seq<Cluster>, k: nat, s: int) returns (q: set<int>, chosen: Log)
    requires ServedRun(run) && k < |run| && 0 <= s < |run[k].nodes|
    ensures Majority(|run[k].nodes|, q) && q <= Range(|run[k].nodes|)
    ensures AgreesWith(run[0].start, run[k].nodes[s], chosen)
    ensures forall p {:trigger run[k].nodes[p]} :: p in q ==>
      Retains(run[0].start, run[k].nodes[p].rf, chosen[..run[k].nodes[s].rf.commitIndex])
  {
    hide LeaderOk, CandidacyOk, VoteOk, AgreesWith, Retains, CommittedPrefix, MessageOk, NodeOk;
    var h, gs;
    h, gs, chosen := At(run, k);
    var c, n := run[k], |run[k].nodes|;
    var r := run[..k + 1];
    SameSize(run, k);
    assert r[k] == c && Recorded(h, n, chosen, s, r[k].nodes[s]);
    var rf := c.nodes[s].rf;
    AgreesBounds(run[0].start, c.nodes[s], chosen);
    q := Holders(c, h, gs, chosen[..rf.commitIndex], rf.currentTerm);
    forall p | p in q
      ensures Retains(run[0].start, c.nodes[p].rf, chosen[..rf.commitIndex])
    {
      assert NodeOk(h, n, p, c.nodes[p], gs[p]);
      NodeView(h, n, p, c.nodes[p], gs[p]);
      ShowsShadow(c.nodes[p].rf, gs[p], chosen[..rf.commitIndex]);
    }
  }

  lemma NodeView(h: History, n: nat, s: int, node: Node, g: Shadow)
    requires AcksValid(h, n) && NodeOk(h, n, s, node, g)
    ensures ViewOk(node.rf, g) && g.start == h.start
  {
    hide GoodLog, Kept, CommittedPrefix, SnapshotsOk, DeliveryOk, Standing;
  }

  /** Whoever acknowledged a committed prefix has it, and they are a majority. */
  lemma Holders(c: Cluster, h: History, gs: seq<Shadow>, p: Log, bound: int) returns (q: set<int>)
    requires Inv(c, h, gs) && c.nodes != [] && CommittedPrefix(h, |c.nodes|, p, bound)
    ensures Majority(|c.nodes|, q) && q <= Range(|c.nodes|)
    ensures forall s {:trigger gs[s]} :: s in q ==> p <= gs[s].full
  {
    hide NodeOk, HistoryOk, MessageOk;
    if p == [] {
      q := Range(|c.nodes|);
    } else {
      var t, i :| t <= bound && PartOf(h, |c.nodes|, p, t, i);
      q := AckSet(h, |c.nodes|, t, i);
      forall s | s in q
        ensures p <= gs[s].full
      {
        AckerHasIt(c, h, gs, s, t, i);
      }
    }
  }

  lemma AgreesAt(start: Data, node: Node, chosen: Log, x: int)
    requires AgreesWith(start, node, chosen) && node.rf.lastIncludedIndex <= x < node.rf.commitIndex
    ensures 0 <= x < |chosen| && x < LastLogIndex(node.rf) && EntryAt(node.rf, x + 1) == chosen[x]
  {
  }

  lemma LeaderHasPrefix(h: History, n: nat, s: int, node: Node, g: Shadow, p: Log, t: int)
    requires HistoryOk(h, n) && NodeOk(h, n, s, node, g) && node.rf.role.Leader?
    requires CommittedPrefix(h, n, p, t) && t <= node.rf.currentTerm
    ensures p <= g.full
  {
    hide LeaderOk, CandidacyOk, VoteOk, Body, MatchOk, VotingOk, CandidateRole;
    CommittedInLeader(h, n, p, node.rf.currentTerm);
  }

  /** A leader's commit index rises by counting replicas or by installing a snapshot, and by nothing else. */
  lemma LeaderCommitsBy(run: seq<Cluster>, k: nat, s: int, a: Action)
    requires ServedRun(run) && k + 1 < |run| && NextBy(run[k], run[k + 1], s, a) && run[k].nodes[s].rf.role.Leader?
    requires run[k].nodes[s].rf.commitIndex < run[k + 1].nodes[s].rf.commitIndex
    ensures run[k + 1].nodes[s].rf.role.Leader? ==>
      a.OnAppendAnswer? || a.OnSnapshotAnswer? || (a.Handle? && run[k].nodes[s].hand.msg.Install?)
  {
    hide Explains, LeaderOk, CandidacyOk, VoteOk, AcksOk, CommittedPrefix, SnapshotsOk, LogOk, VotingOk, MatchOk,
      CandidateRole, CountReplica, BackedUpNext, Merge, InstallArgsOk, Replay, Fold, SameTermFirst, HoldsEntry,
      MakeAppendArgs, CandidateUpToDate, Range;
    var h, gs, _ := At(run, k);
    var c := run[k];
    assert NodeOk(h, |c.nodes|, s, c.nodes[s], gs[s]);
    if a.OnAppend? { assert MessageOk(h, c.nodes, AppendRequest(s, a.append)); }
  }

  /**
   What a leader newly commits on an acknowledgement or a snapshot reply has its own term and is in the
   logs, or the snapshots, of a majority at that very moment.
   */
  lemma CommittedByMajority(run: seq<Cluster>, k: nat, s: int, a: Action) returns (q: set<int>)
    requires ServedRun(run) && k + 1 < |run| && NextBy(run[k], run[k + 1], s, a)
    requires a.OnAppendAnswer? || a.OnSnapshotAnswer?
    requires run[k].nodes[s].rf.commitIndex < run[k + 1].nodes[s].rf.commitIndex
    ensures Majority(|run[k].nodes|, q) && q <= Range(|run[k].nodes|)
    ensures var rf, c := run[k + 1].nodes[s].rf, run[k + 1].nodes[s].rf.commitIndex;
            && rf.lastIncludedIndex < c <= LastLogIndex(rf)
            && EntryAt(rf, c).term == rf.currentTerm
            && forall p {:trigger p in q} :: p in q ==>
                 && c <= LastLogIndex(run[k + 1].nodes[p].rf)
                 && (run[k + 1].nodes[p].rf.lastIncludedIndex < c ==>
                   EntryAt(run[k + 1].nodes[p].rf, c) == EntryAt(rf, c))
  {
    hide LeaderOk, CandidacyOk, VoteOk, NodeOk, MessageOk, CommittedPrefix, Explains, Step;
    var h, gs, chosen := At(run, k);
    var c, n := run[k], |run[k].nodes|;
    var rf := run[k + 1].nodes[s].rf;
    assert NodeOk(h, n, s, c.nodes[s], gs[s]);
    CommitCause(c, h, gs, s, a);
    q := AckSet(h, n, rf.currentTerm, rf.commitIndex);
    HoldersHaveIt(c, h, gs, s, rf.currentTerm, rf.commitIndex);
  }

  lemma CommitCause(c: Cluster, h: History, gs: seq<Shadow>, s: int, a: Action)
    requires Ready(c, h, gs, s, a) && (a.OnAppendAnswer? || a.OnSnapshotAnswer?)
    requires c.nodes[s].rf.commitIndex < Step(|c.nodes|, s, c.nodes[s], a).0.rf.commitIndex
    ensures var rf, rf2 := c.nodes[s].rf, Step(|c.nodes|, s, c.nodes[s], a).0.rf;
            && Committed(h, |c.nodes|, rf2.currentTerm, rf2.commitIndex)
            && rf.role.Leader? && rf2.currentTerm == rf.currentTerm && rf2.log == rf.log
            && rf2.lastIncludedIndex == rf.lastIncludedIndex
  {
    hide LeaderOk, CandidacyOk, VoteOk, NodeOk, CountReplica, Committed;
    var node := c.nodes[s];
    assert NodeOk(h, |c.nodes|, s, node, gs[s]);
    match a
    case OnAppendAnswer(from, args, r) =>
      assert MessageOk(h, c.nodes, AppendAnswer(from, s, args, r));
      var g := OnAppendAnswerOk(h, c.nodes, s, gs[s], from, args, r);
    case OnSnapshotAnswer(from, sent, t) =>
      assert MessageOk(h, c.nodes, SnapshotAnswer(from, s, sent, t));
      var g := OnSnapshotAnswerOk(h, c.nodes, s, gs[s], from, sent, t);
  }

  /** Once committed, an acknowledged prefix cannot have been overruled: every acknowledger still has it. */
  lemma AckerHasIt(c: Cluster, h: History, gs: seq<Shadow>, p: int, t: int, i: int)
    requires Inv(c, h, gs) && Committed(h, |c.nodes|, t, i) && p in AckSet(h, |c.nodes|, t, i)
    ensures h.lead[t].log[..i] <= gs[p].full
  {
    hide LeaderOk, CandidacyOk, VoteOk, MessageOk, Standing, GoodLog, CommittedPrefix, SnapshotsOk, DeliveryOk;
    var n := |c.nodes|;
    assert NodeOk(h, n, p, c.nodes[p], gs[p]);
    forall u | u in h.lead && t < u <= c.nodes[p].rf.currentTerm
      ensures h.lead[t].log[..i] <= h.lead[u].init
    {
      LeaderCompleteness(h, n, t, i, u);
    }
    VoterHadIt(h, n, t, i, p, gs[p].full, c.nodes[p].rf.currentTerm);
  }

  lemma HoldersHaveIt(c: Cluster, h: History, gs: seq<Shadow>, s: int, t: int, i: int)
    requires Inv(c, h, gs) && Committed(h, |c.nodes|, t, i) && 0 <= s < |c.nodes|
    requires c.nodes[s].rf.role.Leader? && c.nodes[s].rf.currentTerm == t && c.nodes[s].rf.commitIndex < i
    ensures var rf := c.nodes[s].rf;
            && rf.lastIncludedIndex < i <= LastLogIndex(rf) && EntryAt(rf, i).term == t
            && forall p {:trigger p in AckSet(h, |c.nodes|, t, i)} :: p in AckSet(h, |c.nodes|, t, i) ==>
                 && i <= LastLogIndex(c.nodes[p].rf)
                 && (c.nodes[p].rf.lastIncludedIndex < i ==> EntryAt(c.nodes[p].rf, i) == EntryAt(rf, i))
  {
    hide LeaderOk, CandidacyOk, VoteOk, MessageOk, AcksOk, LogOk, CommittedPrefix, SnapshotsOk, DeliveryOk, VotingOk,
      MatchOk, CandidateRole;
    var n, node, g := |c.nodes|, c.nodes[s], gs[s];
    assert NodeOk(h, n, s, node, g);
    ShadowView(h, n, s, node, g, g.full);
    assert EntryAt(node.rf, i) == g.full[i - 1];
    forall p | p in AckSet(h, n, t, i)
      ensures i <= LastLogIndex(c.nodes[p].rf)
      ensures c.nodes[p].rf.lastIncludedIndex < i ==> EntryAt(c.nodes[p].rf, i) == EntryAt(node.rf, i)
    {
      AckerHasIt(c, h, gs, p, t, i);
      assert NodeOk(h, n, p, c.nodes[p], gs[p]);
      ShadowView(h, n, p, c.nodes[p], gs[p], gs[p].full);
      assert g.full[..i][i - 1] == gs[p].full[i - 1];
    }
  }

  // ----- Fast backup -----

  /**
   Fast backup makes progress: the answer to the leader's current probe, when it reports a conflicting
   term, lowers the next index it will send from.
   */
  lemma BackupProgress(run: seq<Cluster>, k: nat, s: int, from: int, a: AppendArgs, r: AppendReply)
    requires ServedRun(run) && k < |run| && 0 <= s < |run[k].nodes| && 0 <= from < |run[k].nodes|
    requires AppendAnswer(from, s, a, r) in run[k].net && r.inconsistent && !r.success && r.xTerm != -1
    requires var rf := run[k].nodes[s].rf;
             && rf.role.Leader? && rf.currentTerm == a.term && r.term <= rf.currentTerm
             && |rf.nextIndex| == |run[k].nodes| && rf.nextIndex[from] == a.prevLogIndex + 1
    ensures var rf := run[k].nodes[s].rf;
            && rf.log != [] && rf.peers == |rf.matchIndex| == |rf.nextIndex|
            && HandleAppendReply(rf, from, a, r).nextIndex[from] < rf.nextIndex[from]
  {
    hide Explains, LeaderOk, CandidacyOk, VoteOk, AcksOk, CommittedPrefix, SnapshotsOk, DeliveryOk, VotingOk, MatchOk,
         CandidateRole, GoodLog, CountReplica;
    var h, gs, chosen := At(run, k);
    var c := run[k];
    assert NodeOk(h, |c.nodes|, s, c.nodes[s], gs[s]);
    assert MessageOk(h, c.nodes, AppendAnswer(from, s, a, r));
    BackedUpLower(h, |c.nodes|, c.nodes[s].rf, gs[s], a, r, from);
  }

  /** The leader holds no entry of the conflicting term at or after the probed index. */
  lemma BackedUpLower(h: History, n: nat, rf: Server, g: Shadow, a: AppendArgs, r: AppendReply, from: nat)
    requires ViewOk(rf, g) && GoodLog(h, g.full) && AppendOk(h, n, a) && ConflictOk(h, a, r) && r.xTerm != -1
    requires h.lead[a.term].log == g.full && from < |rf.matchIndex|
    ensures BackedUpNext(rf, from, r) <= a.prevLogIndex
  {
    hide GoodLog, CommittedPrefix;
    var i := LastOfTerm(rf.log, |rf.log|, r.xTerm);
    if i > 0 {
      ViewAt(rf, g, i);
      var e := rf.lastIncludedIndex + i;
      EntryInLeader(h, g.full, e - 1);
      if e >= a.prevLogIndex {
        SharedBefore(h, g.full, e, a.prevLogIndex, r.xTerm);
      }
    }
  }

  lemma SharedBefore(h: History, l: Log, e: nat, prev: nat, t: int)
    requires GoodLog(h, l) && 1 <= prev <= e <= |l| && l[e - 1].term == t && t in h.lead
    requires prev <= |h.lead[t].log| && h.lead[t].log[prev - 1].term == t
    ensures TermOf(l, prev) == t
  {
    assert EntryOk(h, l, e - 1);
    assert l[..e - 1 + 1][prev - 1] == h.lead[t].log[prev - 1];
  }

  // ----- What never goes down, what never goes out of range -----

  /** Terms and snapshots only advance; so does the commit index of a replica that does not crash. */
  lemma OnlyForward(run: seq<Cluster>, k: nat, s: int, a: Action)
    requires ServedRun(run) && k + 1 < |run| && NextBy(run[k], run[k + 1], s, a)
    ensures var rf, rf2 := run[k].nodes[s].rf, run[k + 1].nodes[s].rf;
            && rf.currentTerm <= rf2.currentTerm && rf.lastIncludedIndex <= rf2.lastIncludedIndex
            && (!a.Crash? ==> rf.commitIndex <= rf2.commitIndex)
  {
    hide Explains, NodeOk, LeaderOk, CandidacyOk, VoteOk, Step;
    var h, gs, chosen := At(run, k);
    var c := run[k];
    assert NodeOk(h, |c.nodes|, s, c.nodes[s], gs[s]);
    StepForward(h, |c.nodes|, s, c.nodes[s], gs[s], c, a);
  }

  lemma StepForward(h: History, n: nat, s: int, node: Node, g: Shadow, c: Cluster, a: Action)
    requires AcksValid(h, n) && NodeOk(h, n, s, node, g) && InBounds(node, a)
    requires n == |c.nodes| && 0 <= s < n && c.nodes[s] == node && Enabled(c, s, a)
    ensures var rf, rf2 := node.rf, Step(n, s, node, a).0.rf;
            && rf.currentTerm <= rf2.currentTerm && rf.lastIncludedIndex <= rf2.lastIncludedIndex
            && (!a.Crash? ==> rf.commitIndex <= rf2.commitIndex)
  {
    hide Standing, AcksOk, CommittedPrefix, SnapshotsOk, DeliveryOk, LogOk, Merge, Replay, Fold, BackedUpNext,
      SameTermFirst, MakeAppendArgs, CandidateUpToDate, Range, CountReplica, HandleMessage;
    ViewEnds(node.rf, g);
    CountsUp();
    if a.Handle? { HandleForward(node, a.takeSnapshot); }
  }

  /** Counting replicas never lowers the commit index, whatever has become of the match indexes. */
  lemma CountsUp()
    ensures forall s: Server {:trigger CountReplica(s)} ::
      s.log != [] && s.peers == |s.matchIndex| ==> s.commitIndex <= CountReplica(s)
  {
  }

  lemma HandleForward(node: Node, takeSnapshot: bool)
    requires node.hand.Holding? && node.rf.log != [] && InBounds(node, Handle(takeSnapshot))
    requires node.rf.lastIncludedIndex <= node.rf.commitIndex
    ensures var rf, rf2 := node.rf, HandleMessage(node, takeSnapshot).rf;
      && rf2.currentTerm == rf.currentTerm && rf.lastIncludedIndex <= rf2.lastIncludedIndex
      && rf.commitIndex <= rf2.commitIndex
  {
    hide Fold, HoldsEntry;
  }

  /** The service applies the very next entry, installs a snapshot further on, restarts, or is left alone. */
  ghost predicate Delivers(node: Node, node2: Node, a: Action) {
    var was, now := AppliedTo(node), AppliedTo(node2);
    if a.Handle? && Due(node) then
      node.hand.msg.index == now == was + 1 && node2.kv == Fold(node.kv, node.hand.msg.command)
    else if a.Handle? && node.hand.Holding? && node.hand.msg.Install? && node.hand.msg.index > node.rf.commitIndex then
      was < now == node.hand.msg.index && node2.kv == node.hand.msg.data
    else if a.Crash? then now == node.rf.lastIncludedIndex <= was && node2.kv == node.rf.snapshot
    else now == was && node2.kv == node.kv
  }

  /**
   Delivery: no command is skipped or applied twice. The applied index moves by single entries, each the
   chosen one at that index, forward to an installed snapshot, or back to the replica's own in a crash.
   */
  lemma DeliveredInOrder(run: seq<Cluster>, k: nat, s: int, a: Action) returns (chosen: Log)
    requires ServedRun(run) && k + 1 < |run| && NextBy(run[k], run[k + 1], s, a)
    ensures s < |run[k + 1].nodes| && Delivers(run[k].nodes[s], run[k + 1].nodes[s], a)
    ensures AgreesWith(run[0].start, run[k].nodes[s], chosen) && AgreesWith(run[0].start, run[k + 1].nodes[s], chosen)
    ensures a.Handle? && Due(run[k].nodes[s]) ==>
      && 0 <= AppliedTo(run[k].nodes[s]) < |chosen|
      && run[k].nodes[s].hand.msg.command == chosen[AppliedTo(run[k].nodes[s])].command
  {
    hide AgreesWith, NodeOk, LeaderOk, CandidacyOk, VoteOk, MessageOk, Step, Explains;
    chosen := StateMachineSafety(run);
    SameSize(run, k);
    SameSize(run, k + 1);
    var h, gs, _ := At(run, k);
    var c := run[k];
    assert NodeOk(h, |c.nodes|, s, c.nodes[s], gs[s]);
    AppliedStep(h, |c.nodes|, s, c.nodes[s], gs[s], c, a);
    if a.Handle? && Due(c.nodes[s]) { AgreesAt(run[0].start, c.nodes[s], chosen, AppliedTo(c.nodes[s])); }
  }

  lemma AppliedStep(h: History, n: nat, s: int, node: Node, g: Shadow, c: Cluster, a: Action)
    requires AcksValid(h, n) && NodeOk(h, n, s, node, g) && InBounds(node, a)
    requires n == |c.nodes| && 0 <= s < n && c.nodes[s] == node && Enabled(c, s, a)
    requires Tolerates(node)
    ensures Delivers(node, Step(n, s, node, a).0, a)
    ensures var x := AppliedTo(node);
      a.Handle? && Due(node) ==>
        && node.rf.lastIncludedIndex <= x < node.rf.commitIndex && x < LastLogIndex(node.rf)
        && EntryAt(node.rf, x + 1).command == node.hand.msg.command
  {
    hide Standing, AcksOk, CommittedPrefix, SnapshotsOk, GoodLog, Fold, Replay, Enabled, Tolerates;
    hide CandidateState, HandleVote, HandleVoteReply, Start, HandleAppend, HandleAppendReply, HandleSnapshotReply,
      HandleSnapshot, MakeAppendArgs, HandleMessage;
    BatchStarts(c, s, a);
    if a.Handle? {
      HandledStep(h, n, s, node, g, a.takeSnapshot);
    } else if a.ReceiveCommand? {
      EntryIndex(h, g.full, Rest(node));
    } else if a.ReceiveSnapshot? {
      PendingInstalls(h, n, node, a.msg);
    } else if !a.FinishBatch? && !a.GrabBatch? && !a.Crash? {
      LeavesService(n, s, node, c, a);
    }
  }

  lemma HandledStep(h: History, n: nat, s: int, node: Node, g: Shadow, takeSnapshot: bool)
    requires AcksValid(h, n) && NodeOk(h, n, s, node, g) && Tolerates(node)
    requires node.hand.Holding? && InBounds(node, Handle(takeSnapshot))
    ensures Delivers(node, HandleMessage(node, takeSnapshot), Handle(takeSnapshot))
    ensures Due(node) ==>
      && node.rf.lastIncludedIndex <= AppliedTo(node) < node.rf.commitIndex && AppliedTo(node) < LastLogIndex(node.rf)
      && EntryAt(node.rf, AppliedTo(node) + 1).command == node.hand.msg.command
  {
    hide Standing, AcksOk, CommittedPrefix, SnapshotsOk, GoodLog, Fold, Replay, HoldsEntry;
    ViewEnds(node.rf, g);
  }

  lemma BatchStarts(c: Cluster, s: int, a: Action)
    requires 0 <= s < |c.nodes| && Enabled(c, s, a)
    ensures a.ReceiveCommand? || a.ReceiveSnapshot? ==> c.nodes[s].hand.Empty?
    ensures a.ReceiveCommand? ==> c.nodes[s].batch.Sending? && c.nodes[s].batch.entries != []
    ensures a.FinishBatch? ==> c.nodes[s].batch.Sending? && c.nodes[s].batch.entries == []
    ensures a.GrabBatch? ==> c.nodes[s].batch.Idle?
    ensures a.Handle? ==> c.nodes[s].hand.Holding?
    ensures a.ReceiveSnapshot? ==> a.msg in c.nodes[s].pending
  {
  }

  lemma PendingInstalls(h: History, n: nat, node: Node, m: ApplyMsg)
    requires SnapshotsOk(h, n, node) && m in node.pending
    ensures m.Install?
  {
    hide CommittedPrefix;
    assert InstallOk(h, n, m, node.rf.currentTerm);
  }

  /** Elections and replication do not touch the apply channel or the service. */
  lemma LeavesService(n: nat, s: int, node: Node, c: Cluster, a: Action)
    requires Shape(n, s, node) && InBounds(node, a)
    requires n == |c.nodes| && 0 <= s < n && c.nodes[s] == node && Enabled(c, s, a)
    requires a.Timeout? || a.OnVote? || a.OnVoteAnswer? || a.Propose? || a.Send? || a.OnAppend? || a.OnAppendAnswer?
      || a.OnSnapshot? || a.OnSnapshotAnswer?
    ensures var node2 := Step(n, s, node, a).0;
      && node2.batch == node.batch && node2.hand == node.hand && node2.kv == node.kv && node2.kvLast == node.kvLast
      && node2.rf.lastApplied == node.rf.lastApplied
  {
    hide Merge, CountReplica, BackedUpNext;
  }

  /** No step of any replica ever slices its log out of range, and every enabled step can be taken. */
  lemma NeverOutOfBounds(run: seq<Cluster>, k: nat, s: int, a: Action)
    requires ServedRun(run) && k < |run| && 0 <= s < |run[k].nodes| && Enabled(run[k], s, a)
    ensures Shape(|run[k].nodes|, s, run[k].nodes[s]) && InBounds(run[k].nodes[s], a)
  {
    hide Explains, Standing, Body, LeaderOk, CandidacyOk, VoteOk;
    var h, gs, chosen := At(run, k);
    var n, node := |run[k].nodes|, run[k].nodes[s];
    assert NodeOk(h, n, s, node, gs[s]);
    if a.GrabBatch? { GrabBatchOk(h, n, s, node, gs[s]); }
    if a.Handle? && node.hand.msg.Command? { HandleCommandSnapshotOk(h, n, s, node, gs[s]); }
  }
}
