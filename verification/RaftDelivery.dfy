/** Snapshots, the apply channel and the service: every interleaving leaves the service at a replayed prefix. */
module RaftDelivery {
  import opened Service
  import opened RaftServer
  import opened RaftCluster
  import opened RaftHistory
  import opened RaftInvariant
  import opened RaftElection
  import opened RaftReplication

  /** Elections do not look at the apply channel or the service. */
  lemma StandingSame(h: History, n: nat, s: int, node: Node, node2: Node, l: Log)
    requires |node.rf.matchIndex| == n && Standing(h, n, s, node, l)
    requires node2.awaiting == node.awaiting && node2.rf.matchIndex == node.rf.matchIndex
    requires node2.rf.nextIndex == node.rf.nextIndex
    requires node2.rf.role == node.rf.role && node2.rf.currentTerm == node.rf.currentTerm
    requires node2.rf.votedFor == node.rf.votedFor && node2.rf.votesNum == node.rf.votesNum
    requires node.rf.commitIndex <= node2.rf.commitIndex
    ensures Standing(h, n, s, node2, l)
  {
  }

  /** A change of what is in flight only. */
  lemma InFlightOk(h: History, n: nat, s: int, node: Node, node2: Node, g: Shadow)
    requires AcksValid(h, n) && NodeOk(h, n, s, node, g)
    requires node2.rf == node.rf && node2.awaiting == node.awaiting
    requires SnapshotsOk(h, n, node2) && node.rf.commitIndex <= |g.full| && DeliveryOk(node2, g)
    ensures NodeOk(h, n, s, node2, g)
  {
    hide GoodLog, Kept, CommittedPrefix, SnapshotsOk, DeliveryOk, Standing;
    StandingSame(h, n, s, node, node2, g.full);
  }

  // ----- Receiving a snapshot from the leader -----

  lemma PendingOk(h: History, n: nat, s: int, node: Node, g: Shadow, m: ApplyMsg)
    requires AcksValid(h, n) && NodeOk(h, n, s, node, g) && InstallOk(h, n, m, node.rf.currentTerm)
    ensures NodeOk(h, n, s, node.(pending := node.pending + {m}), g)
  {
    hide GoodLog, Kept, CommittedPrefix, Standing, InstallOk;
    InFlightOk(h, n, s, node, node.(pending := node.pending + {m}), g);
  }

  lemma OnSnapshotOk(h: History, nodes: seq<Node>, s: int, g: Shadow, a: SnapshotArgs)
    requires HistoryOk(h, |nodes|) && 0 <= s < |nodes| && NodeOk(h, |nodes|, s, nodes[s], g)
    requires MessageOk(h, nodes, SnapshotRequest(s, a))
    ensures var (rf, replyTerm, handOn) := HandleSnapshot(nodes[s].rf, a);
            var msg := Install(a.lastIncludedIndex, a.lastIncludedTerm, a.data);
            var node := nodes[s];
            var node2 := node.(rf := rf, pending := if handOn then node.pending + {msg} else node.pending);
            && NodeOk(h, |nodes|, s, node2, g)
            && MessageOk(h, nodes[s := node2], SnapshotAnswer(s, a.leader, a.lastIncludedIndex, replyTerm))
            && node.rf.currentTerm <= rf.currentTerm && rf.lastIncludedIndex == node.rf.lastIncludedIndex
  {
    hide Body, Standing, LeaderOk, CandidacyOk, VoteOk;
    var node, n := nodes[s], |nodes|;
    var node1 := node;
    if a.term > node.rf.currentTerm {
      FollowerOk(h, n, s, node, g, a.term);
      node1 := node.(rf := FollowerState(node.rf, a.term));
    }
    var (rf, replyTerm, handOn) := HandleSnapshot(node.rf, a);
    var msg := Install(a.lastIncludedIndex, a.lastIncludedTerm, a.data);
    if handOn {
      assert InstallOk(h, n, msg, node1.rf.currentTerm);
      PendingOk(h, n, s, node1, g, msg);
    }
  }

  // ----- The apply goroutine -----

  lemma GrabBatchOk(h: History, n: nat, s: int, node: Node, g: Shadow)
    requires AcksValid(h, n) && NodeOk(h, n, s, node, g)
    requires node.batch.Idle? && node.rf.lastApplied < node.rf.commitIndex
    ensures InBounds(node, GrabBatch)
    ensures NodeOk(h, n, s, Step(n, s, node, GrabBatch).0, g)
  {
    hide GoodLog, Kept, CommittedPrefix, Standing, SnapshotsOk, DeliveryOk;
    ViewEnds(node.rf, g);
    var node2 := Step(n, s, node, GrabBatch).0;
    GrabDelivery(node, node2, g);
    assert SnapshotsOk(h, n, node2) by { SnapshotsSame(h, n, node, node2); }
    InFlightOk(h, n, s, node, node2, g);
  }

  lemma GrabDelivery(node: Node, node2: Node, g: Shadow)
    requires ViewOk(node.rf, g) && DeliveryOk(node, g) && node.batch.Idle? && node.rf.lastApplied < node.rf.commitIndex
    requires var first, a, c := node.rf.lastIncludedIndex, node.rf.lastApplied, node.rf.commitIndex;
             node2 == node.(batch := Sending(node.rf.log[a + 1 - first..c + 1 - first], c))
    ensures DeliveryOk(node2, g)
  {
    BatchSlice(node.rf.log, g.full, node.rf.lastIncludedIndex, node.rf.lastApplied, node.rf.commitIndex);
  }

  lemma BatchSlice(log: Log, l: Log, first: nat, a: nat, c: nat)
    requires first <= a <= c <= |l| && log == [HEAD] + l[first..]
    ensures log[a + 1 - first..c + 1 - first] == l[a..c]
  {
    assert log[1..] == l[first..];
    assert log[a + 1 - first..c + 1 - first] == log[1..][a - first..c - first];
  }

  lemma ReceiveCommandOk(h: History, n: nat, s: int, node: Node, g: Shadow)
    requires AcksValid(h, n) && NodeOk(h, n, s, node, g)
    requires node.hand.Empty? && node.batch.Sending? && node.batch.entries != []
    ensures NodeOk(h, n, s, Step(n, s, node, ReceiveCommand).0, g)
  {
    hide Kept, CommittedPrefix, Standing, InstallOk, GoodLog;
    var node2 := Step(n, s, node, ReceiveCommand).0;
    var from, upTo := Rest(node), node.batch.upTo;
    assert node.batch.entries == g.full[from..upTo];
    EntryIndex(h, g.full, from);
    assert node2.batch.entries == g.full[from + 1..upTo];
    InFlightOk(h, n, s, node, node2, g);
  }

  lemma EntryIndex(h: History, l: Log, k: nat)
    requires GoodLog(h, l) && k < |l|
    ensures l[k].index == k + 1
  {
    assert EntryOk(h, l, k);
  }

  lemma ReceiveSnapshotOk(h: History, n: nat, s: int, node: Node, g: Shadow, m: ApplyMsg)
    requires AcksValid(h, n) && NodeOk(h, n, s, node, g) && node.hand.Empty? && m in node.pending
    ensures NodeOk(h, n, s, node.(hand := Holding(m), pending := node.pending - {m}), g)
  {
    hide GoodLog, Kept, CommittedPrefix, Standing;
    InFlightOk(h, n, s, node, node.(hand := Holding(m), pending := node.pending - {m}), g);
  }

  lemma FinishBatchOk(h: History, n: nat, s: int, node: Node, g: Shadow)
    requires AcksValid(h, n) && NodeOk(h, n, s, node, g) && node.batch.Sending? && node.batch.entries == []
    ensures NodeOk(h, n, s, Step(n, s, node, FinishBatch).0, g)
  {
    hide GoodLog, Kept, CommittedPrefix, Standing, InstallOk;
    StandingSame(h, n, s, node, Step(n, s, node, FinishBatch).0, g.full);
  }

  // ----- The service handles a command -----

  lemma ReplayOne(start: Data, l: Log, k: nat)
    requires k < |l|
    ensures Replay(start, l[..k + 1]) == Fold(Replay(start, l[..k]), l[k].command)
  {
    assert l[..k + 1][..k] == l[..k];
  }

  lemma HandleCommandOk(h: History, n: nat, s: int, node: Node, g: Shadow)
    requires AcksValid(h, n) && NodeOk(h, n, s, node, g) && node.hand.Holding? && node.hand.msg.Command?
    requires Tolerates(node)
    ensures var g2 := if Due(node) then g.(applied := g.applied + 1) else g;
            NodeOk(h, n, s, HandleMessage(node, false), g2)
  {
    hide GoodLog, Kept, CommittedPrefix, Standing, InstallOk, Fold;
    var node2 := HandleMessage(node, false);
    StandingSame(h, n, s, node, node2, g.full);
    if Due(node) {
      assert node.hand.msg.index - 1 == g.applied;
      ReplayOne(g.start, g.full, g.applied);
    }
  }

  /** Taking a snapshot of exactly what the service has applied. */
  lemma TakeSnapshotOk(h: History, n: nat, s: int, node: Node, g: Shadow)
    requires AcksValid(h, n) && NodeOk(h, n, s, node, g) && node.hand.Empty?
    requires node.rf.lastIncludedIndex < g.applied
    ensures g.applied <= LastLogIndex(node.rf)
    ensures NodeOk(h, n, s, node.(rf := Snapshot(node.rf, g.applied, node.kv)), g)
  {
    hide GoodLog, Kept, CommittedPrefix, Standing, InstallOk, Replay, Fold;
    ViewEnds(node.rf, g);
    var node2 := node.(rf := Snapshot(node.rf, g.applied, node.kv));
    ViewAt(node.rf, g, g.applied - node.rf.lastIncludedIndex);
    StandingSame(h, n, s, node, node2, g.full);
  }

  /** With a snapshot of its own the service does the same, and then trims the log at what it applied. */
  lemma SnapshotAfter(node: Node)
    requires node.hand.Holding? && node.hand.msg.Command? && node.rf.log != []
    requires node.hand.msg.index <= LastLogIndex(node.rf) && node.kvLast <= node.rf.lastIncludedIndex
    ensures var after := HandleMessage(node, false);
      HandleMessage(node, true) ==
        if Due(node) then after.(rf := Snapshot(node.rf, node.hand.msg.index, after.kv)) else after
  {
    hide Fold;
  }

  lemma HandleCommandSnapshotOk(h: History, n: nat, s: int, node: Node, g: Shadow)
    requires AcksValid(h, n) && NodeOk(h, n, s, node, g) && node.hand.Holding? && node.hand.msg.Command?
    ensures InBounds(node, Handle(true))
    ensures var g2 := if Due(node) then g.(applied := g.applied + 1) else g;
            Tolerates(node) ==> NodeOk(h, n, s, HandleMessage(node, true), g2)
  {
    hide NodeOk, HandleMessage, Tolerates, Snapshot;
    CommandBounds(h, n, s, node, g);
    SnapshotAfter(node);
    if Tolerates(node) {
      HandleCommandOk(h, n, s, node, g);
      if Due(node) {
        HandledSame(node);
        TakeSnapshotOk(h, n, s, HandleMessage(node, false), g.(applied := g.applied + 1));
      }
    }
  }

  lemma CommandBounds(h: History, n: nat, s: int, node: Node, g: Shadow)
    requires AcksValid(h, n) && NodeOk(h, n, s, node, g) && node.hand.Holding? && node.hand.msg.Command?
    ensures node.rf.log != [] && node.hand.msg.index <= node.rf.commitIndex <= LastLogIndex(node.rf)
    ensures node.kvLast <= node.rf.lastIncludedIndex
    ensures Due(node) ==> node.hand.msg.index == g.applied + 1 > node.rf.lastIncludedIndex
  {
    hide Standing, LogOk, AcksOk, CommittedPrefix, SnapshotsOk, Replay;
    ViewEnds(node.rf, g);
  }

  lemma HandledSame(node: Node)
    requires node.hand.Holding? && node.hand.msg.Command? && Due(node) && node.rf.log != []
    ensures HandleMessage(node, false).rf == node.rf && HandleMessage(node, false).hand.Empty?
  {
  }

  // ----- The service handles a snapshot -----

  /** The log after installing a snapshot of p: unchanged if it holds p, otherwise p. */
  ghost function Installed(l: Log, p: Log): Log {
    if p <= l then l else p
  }

  lemma CommittedGood(h: History, n: nat, p: Log, bound: int)
    requires HistoryOk(h, n) && CommittedPrefix(h, n, p, bound)
    ensures GoodLog(h, p) && (p != [] ==> TermOf(p, |p|) <= bound)
  {
    if p != [] {
      var t, i :| t <= bound && PartOf(h, n, p, t, i);
      assert LeaderOk(h, n, t);
      GoodPrefix(h, h.lead[t].log, |p|);
      assert p == h.lead[t].log[..|p|];
      assert p[|p| - 1] == h.lead[t].log[|p| - 1];
    }
  }

  /** The trimmed log recognises the snapshot's last entry exactly when the whole log holds the snapshot. */
  lemma HoldsEntryMeans(h: History, n: nat, rf: Server, g: Shadow, p: Log)
    requires ViewOk(rf, g) && GoodLog(h, g.full) && GoodLog(h, p) && rf.lastIncludedIndex <= |p|
    ensures rf.log != [] && (HoldsEntry(rf, |p|, TermOf(p, |p|)) <==> p <= g.full)
  {
    hide GoodLog;
    ViewEnds(rf, g);
    if |p| <= |g.full| {
      ViewAt(rf, g, |p| - rf.lastIncludedIndex);
      if TermOf(p, |p|) == TermOf(g.full, |p|) {
        LogMatching(h, p, g.full, |p|);
        assert p == p[..|p|];
      }
      if p <= g.full { TermOfPrefix(p, g.full, |p|); }
    }
  }

  lemma InstalledHigh(h: History, n: nat, l: Log, high: nat, p: Log, bound: int)
    requires HistoryOk(h, n) && high <= |l| && CommittedPrefix(h, n, l[..high], bound)
      && CommittedPrefix(h, n, p, bound)
    ensures var l2 := Installed(l, p);
            && high <= |l2| && l2[..high] == l[..high] && |p| <= |l2| && l2[..|p|] == p
            && Max(high, |p|) <= |l2| && CommittedPrefix(h, n, l2[..Max(high, |p|)], bound)
  {
    hide LeaderOk, CandidacyOk, VoteOk, CommittedPrefix;
    CommittedComparable(h, n, l[..high], p, bound, bound);
    assert p <= l[..high] ==> p <= l;
    var l2 := Installed(l, p);
    assert l2[..|p|] == p;
  }

  /** Acknowledged entries survive the installation of a committed prefix. */
  lemma InstalledKept(h: History, n: nat, s: int, l: Log, p: Log, bound: int)
    requires HistoryOk(h, n) && Kept(h, n, s, l, bound) && CommittedPrefix(h, n, p, bound)
    ensures Kept(h, n, s, Installed(l, p), bound)
  {
    hide LeaderOk, CandidacyOk, VoteOk;
    var l2 := Installed(l, p);
    if !(p <= l) {
      var t, k :| t <= bound && PartOf(h, n, p, t, k);
      forall u, i | (s, u) in h.ack && u <= bound && 0 <= i <= h.ack[(s, u)]
        ensures Holds(h, p, u, i, bound)
      {
        assert Holds(h, l, u, i, bound);
        if h.lead[u].log[..i] <= l { SurvivesInstall(h, n, l, p, t, k, u, i, bound); }
      }
    }
  }

  lemma SurvivesInstall(h: History, n: nat, l: Log, p: Log, t: int, k: int, u: int, i: int, bound: int)
    requires HistoryOk(h, n) && PartOf(h, n, p, t, k) && t <= bound && !(p <= l)
    requires u in h.lead && 0 <= i <= |h.lead[u].log| && h.lead[u].log[..i] <= l
    ensures Holds(h, p, u, i, bound)
  {
    hide LeaderOk, CandidacyOk, VoteOk;
    var q := h.lead[u].log[..i];
    if t <= u {
      assert CommittedPrefix(h, n, p, u);
      CommittedInLeader(h, n, p, u);
    } else if q <= h.lead[t].init {
      assert LeaderOk(h, n, t);
      InitInLog(h, n, t);
    } else {
      assert Lacks(h, t, u, i);
    }
  }

  lemma InitInLog(h: History, n: nat, t: int)
    requires AcksValid(h, n) && t in h.lead && LeaderOk(h, n, t)
    ensures h.lead[t].init <= h.lead[t].log
  {
  }

  /** A leader already holds every committed prefix; a candidate that does not cannot win. */
  lemma InstalledStanding(h: History, n: nat, s: int, node: Node, node2: Node, l: Log, p: Log)
    requires HistoryOk(h, n) && |node.rf.matchIndex| == n && Standing(h, n, s, node, l)
    requires CommittedPrefix(h, n, p, node.rf.currentTerm)
    requires node2.awaiting == node.awaiting && node2.rf.matchIndex == node.rf.matchIndex
    requires node2.rf.nextIndex == node.rf.nextIndex
    requires node2.rf.role == node.rf.role && node2.rf.currentTerm == node.rf.currentTerm
    requires node2.rf.votedFor == node.rf.votedFor && node2.rf.votesNum == node.rf.votesNum
    requires node.rf.commitIndex <= node2.rf.commitIndex
    ensures Standing(h, n, s, node2, Installed(l, p))
  {
    hide LeaderOk, CandidacyOk, VoteOk;
    StandingSame(h, n, s, node, node2, l);
    var t := node.rf.currentTerm;
    if !(p <= l) {
      if node.rf.role.Leader? { CommittedInLeader(h, n, p, t); }
      if node.rf.role.Candidate? && t !in h.lead && l == h.cand[(s, t)] {
        var t1, i :| t1 <= t && PartOf(h, n, p, t1, i);
        assert Missing(h, n, h.cand[(s, t)], t1, i);
      }
    }
  }

  /** The service after it installed a snapshot: everything still in flight is older and will be skipped. */
  lemma InstalledDelivery(node: Node, node2: Node, g: Shadow, g2: Shadow, p: Log)
    requires node.rf.commitIndex <= |g.full| && DeliveryOk(node, g)
    requires node.rf.commitIndex < |p| <= |g2.full| && g2.full[..|p|] == p && g2.applied == |p|
    requires g2.full[..node.rf.commitIndex] == g.full[..node.rf.commitIndex]
    requires node2.kv == Replay(g2.start, p) && node2.kvLast == |p| && node2.hand.Empty? && node2.batch == node.batch
    requires node2.rf.commitIndex == node2.rf.lastApplied == node2.rf.lastIncludedIndex == |p|
    ensures DeliveryOk(node2, g2)
  {
    if node.batch.Sending? {
      var a, b, c := node.batch.upTo - |node.batch.entries|, node.batch.upTo, node.rf.commitIndex;
      assert forall k :: 0 <= k < c ==> g.full[k] == g.full[..c][k] && g2.full[k] == g2.full[..c][k];
      assert g2.full[a..b] == g.full[a..b];
    }
  }

  lemma InstalledView(h: History, n: nat, rf: Server, g: Shadow, p: Log, high: int)
    requires ViewOk(rf, g) && GoodLog(h, g.full) && GoodLog(h, p) && rf.commitIndex < |p|
    requires var l2 := Installed(g.full, p); |p| <= high <= |l2| && l2[..|p|] == p
    ensures rf.log != [] && CondInstallSnapshot(rf, |p|, TermOf(p, |p|), Replay(g.start, p)).1
    ensures ViewOk(CondInstallSnapshot(rf, |p|, TermOf(p, |p|), Replay(g.start, p)).0,
                   Shadow(Installed(g.full, p), |p|, high, g.start))
  {
    hide GoodLog, HoldsEntry;
    HoldsEntryMeans(h, n, rf, g, p);
    var l2 := Installed(g.full, p);
    TermOfPrefix(l2, p, |p|);
    if p <= g.full { TrimTail(rf.log, g.full, rf.lastIncludedIndex, |p|); }
  }

  lemma TrimTail(log: Log, l: Log, first: nat, k: nat)
    requires first <= k <= |l| && log == [HEAD] + l[first..]
    ensures |log| == 1 + |l| - first && log[k - first + 1..] == l[k..]
  {
  }

  lemma HandleInstallOk(h: History, n: nat, s: int, node: Node, g: Shadow, takeSnapshot: bool) returns (g2: Shadow)
    requires HistoryOk(h, n) && NodeOk(h, n, s, node, g) && node.hand.Holding? && node.hand.msg.Install?
    ensures NodeOk(h, n, s, HandleMessage(node, takeSnapshot), g2)
    ensures 0 <= g.high <= g2.high <= |g2.full| && g.high <= |g.full| && g2.full[..g.high] == g.full[..g.high]
  {
    hide Body, Standing, LeaderOk, CandidacyOk, VoteOk;
    g2 := g;
    if node.hand.msg.index <= node.rf.commitIndex {
      DropOk(h, n, s, node, g);
    } else {
      g2 := InstallNowOk(h, n, s, node, g, takeSnapshot);
    }
  }

  /** A snapshot no newer than what is committed is dropped. */
  lemma DropOk(h: History, n: nat, s: int, node: Node, g: Shadow)
    requires AcksValid(h, n) && NodeOk(h, n, s, node, g) && node.hand.Holding? && node.hand.msg.Install?
    ensures NodeOk(h, n, s, node.(hand := Empty), g) && 0 <= g.high <= |g.full|
  {
    hide GoodLog, Kept, CommittedPrefix, Standing, InstallOk;
    InFlightOk(h, n, s, node, node.(hand := Empty), g);
  }

  lemma InstallNowOk(h: History, n: nat, s: int, node: Node, g: Shadow, takeSnapshot: bool) returns (g2: Shadow)
    requires HistoryOk(h, n) && NodeOk(h, n, s, node, g) && node.hand.Holding? && node.hand.msg.Install?
    requires node.hand.msg.index > node.rf.commitIndex
    ensures NodeOk(h, n, s, HandleMessage(node, takeSnapshot), g2)
    ensures 0 <= g.high <= g2.high <= |g2.full| && g.high <= |g.full| && g2.full[..g.high] == g.full[..g.high]
  {
    hide GoodLog, Kept, CommittedPrefix, Standing, LeaderOk, CandidacyOk, VoteOk, Installed, DeliveryOk;
    var msg, t := node.hand.msg, node.rf.currentTerm;
    var node2 := HandleMessage(node, takeSnapshot);
    g2 := g;
    var p :| SnapshotOf(h, n, p, msg, t);
    CommittedGood(h, n, p, t);
    InstalledHigh(h, n, g.full, g.high, p, t);
    g2 := Shadow(Installed(g.full, p), |p|, Max(g.high, |p|), g.start);
    InstalledView(h, n, node.rf, g, p, g2.high);
    InstalledKept(h, n, s, g.full, p, t);
    InstalledStanding(h, n, s, node, node2, g.full, p);
    PrefixEqual(g.full, g2.full, g.high, node.rf.commitIndex);
    InstalledDelivery(node, node2, g, g2, p);
    InstalledLog(h, node.rf, g.full, p);
  }

  lemma InstalledLog(h: History, rf: Server, l: Log, p: Log)
    requires LogOk(h, rf, l) && GoodLog(h, p) && (p != [] ==> TermOf(p, |p|) <= rf.currentTerm)
    ensures GoodLog(h, Installed(l, p)) && TermOf(Installed(l, p), |Installed(l, p)|) <= rf.currentTerm
  {
  }

  // ----- Crash and restart -----

  lemma CrashOk(h: History, n: nat, s: int, node: Node, g: Shadow)
    requires AcksValid(h, n) && NodeOk(h, n, s, node, g)
    ensures NodeOk(h, n, s, Step(n, s, node, Crash).0, g.(applied := node.rf.lastIncludedIndex))
  {
    hide Standing, DeliveryOk, GoodLog, Kept, CommittedPrefix, InstallOk, Replay, Fold;
    var node2 := Step(n, s, node, Crash).0;
    CrashDelivery(node, node2, g);
    CrashStanding(h, n, s, node, node2, g.full);
  }

  lemma CrashDelivery(node: Node, node2: Node, g: Shadow)
    requires ViewOk(node.rf, g) && DeliveryOk(node, g)
    requires node2 == Node(Restart(node.rf), {}, {}, Idle, Empty, node.rf.snapshot, 0)
    ensures ViewOk(node2.rf, g.(applied := node.rf.lastIncludedIndex))
    ensures DeliveryOk(node2, g.(applied := node.rf.lastIncludedIndex))
  {
    hide Replay;
  }

  /** A restarted replica follows; term and vote are as they were. */
  lemma CrashStanding(h: History, n: nat, s: int, node: Node, node2: Node, l: Log)
    requires |node.rf.matchIndex| == n && |node2.rf.matchIndex| == n && Standing(h, n, s, node, l)
    requires node2.rf.role.Follower? && node2.rf.currentTerm == node.rf.currentTerm
    requires node2.rf.votedFor == node.rf.votedFor
    ensures Standing(h, n, s, node2, l)
  {
  }
}
