/** What every reachable cluster satisfies, relative to its history, and how it survives steps of others. */
module RaftInvariant {
  import opened Service
  import opened RaftServer
  import opened RaftCluster
  import opened RaftHistory

  /**
   The untrimmed log of a replica, the number of its entries the service state reflects, the highest
   commit index the replica ever had, crashes included, and where its service started.
   */
  datatype Shadow = Shadow(full: Log, applied: int, high: int, start: Data)

  /** The service state after replaying a log from the start. */
  ghost function Replay(start: Data, l: Log): Data {
    if l == [] then start else Fold(Replay(start, l[..|l| - 1]), l[|l| - 1].command)
  }

  // ----- One replica -----

  ghost predicate ViewOk(rf: Server, g: Shadow) {
    && 0 <= rf.lastIncludedIndex <= rf.lastApplied <= rf.commitIndex <= g.high <= |g.full|
    && rf.log == [HEAD] + g.full[rf.lastIncludedIndex..]
    && rf.lastIncludedTerm == TermOf(g.full, rf.lastIncludedIndex)
    && rf.snapshot == Replay(g.start, g.full[..rf.lastIncludedIndex])
  }

  ghost predicate LogOk(h: History, rf: Server, l: Log) {
    0 <= rf.currentTerm && GoodLog(h, l) && TermOf(l, |l|) <= rf.currentTerm
  }

  ghost predicate LeaderRole(h: History, s: int, rf: Server, l: Log) {
    rf.role.Leader? ==>
      && rf.currentTerm in h.lead && h.lead[rf.currentTerm].id == s && h.lead[rf.currentTerm].log == l
      && forall j {:trigger rf.nextIndex[j]} :: 0 <= j < |rf.nextIndex| ==> rf.nextIndex[j] <= |l| + 1
  }

  ghost function Granters(h: History, n: nat, s: int, t: int): set<int> {
    set p | p in Range(n) && (p, t) in h.votes && h.votes[(p, t)].candidate == s
  }

  ghost predicate Missing(h: History, n: nat, l: Log, t: int, i: int) {
    Committed(h, n, t, i) && !(h.lead[t].log[..i] <= l)
  }

  /** A candidate's log is the one it campaigns with, unless that one cannot win. */
  ghost predicate CandidateRole(h: History, n: nat, s: int, node: Node, l: Log) {
    var t := node.rf.currentTerm;
    node.rf.role.Candidate? ==>
      && node.rf.votedFor == s
      && (s, t) in h.cand
      && (t in h.lead || l == h.cand[(s, t)] || exists t1, i :: t1 < t && Missing(h, n, h.cand[(s, t)], t1, i))
      && node.rf.votesNum <= 1 + |Granters(h, n, s, t) - node.awaiting|
  }

  /** Votes that elected or may still elect someone are never cleared. */
  ghost predicate VotingOk(h: History, s: int, rf: Server) {
    && (forall t {:trigger (s, t) in h.votes} :: (s, t) in h.votes ==>
          t <= rf.currentTerm && (t == rf.currentTerm ==> rf.votedFor == h.votes[(s, t)].candidate))
    && (forall t {:trigger (s, t) in h.cand} :: (s, t) in h.cand ==> t <= rf.currentTerm)
    && (forall t {:trigger t in h.lead} :: t in h.lead && h.lead[t].id == s ==>
          t <= rf.currentTerm && (t == rf.currentTerm ==> rf.votedFor == s && !rf.role.Candidate?))
  }

  ghost predicate AcksOk(h: History, n: nat, s: int, rf: Server, l: Log)
    requires AcksValid(h, n)
  {
    && (forall t {:trigger (s, t) in h.ack} :: (s, t) in h.ack ==> t <= rf.currentTerm)
    && Kept(h, n, s, l, rf.currentTerm)
  }

  ghost predicate MatchOk(h: History, n: nat, s: int, rf: Server)
    requires |rf.matchIndex| == n
  {
    rf.role.Leader? ==> forall j {:trigger rf.matchIndex[j]} :: 0 <= j < n && j != s ==>
      rf.matchIndex[j] <= rf.commitIndex || Acked(h, j, rf.currentTerm, rf.matchIndex[j])
  }

  ghost predicate SnapshotOf(h: History, n: nat, p: Log, m: ApplyMsg, bound: int) {
    && m.Install? && m.index == |p| && m.term == TermOf(p, |p|) && m.data == Replay(h.start, p)
    && CommittedPrefix(h, n, p, bound)
  }

  ghost predicate InstallOk(h: History, n: nat, m: ApplyMsg, bound: int) {
    exists p :: SnapshotOf(h, n, p, m, bound)
  }

  ghost predicate SnapshotsOk(h: History, n: nat, node: Node) {
    && (forall m {:trigger m in node.pending} :: m in node.pending ==> InstallOk(h, n, m, node.rf.currentTerm))
    && (node.hand.Holding? && node.hand.msg.Install? ==> InstallOk(h, n, node.hand.msg, node.rf.currentTerm))
  }

  /** The index after which the batch still to be received continues. */
  function Rest(node: Node): int {
    if node.batch.Sending? then node.batch.upTo - |node.batch.entries| else node.rf.lastApplied
  }

  /** A command is in hand that the service will apply. */
  predicate Due(node: Node) {
    node.hand.Holding? && node.hand.msg.Command? && node.hand.msg.index > node.kvLast
  }

  /** How many entries of the log the service state reflects, as the replica itself shows it. */
  function AppliedTo(node: Node): int {
    if Due(node) then node.hand.msg.index - 1 else Max(Rest(node), node.kvLast)
  }

  /** Commands in flight are exactly the committed entries after those the service has applied... */
  ghost predicate InStep(node: Node, applied: int) {
    && (if Due(node) then node.hand.msg.index == applied + 1 == Rest(node) else Rest(node) == applied)
    && (node.batch.Sending? ==> node.rf.lastApplied <= Rest(node))
  }

  /** ...or a snapshot has overtaken them all and each will be skipped. */
  ghost predicate Overtaken(node: Node, applied: int) {
    && node.batch.Sending? && node.batch.upTo <= applied == node.kvLast == node.rf.lastApplied
    && !Due(node)
  }

  ghost predicate DeliveryOk(node: Node, g: Shadow)
    requires node.rf.commitIndex <= |g.full|
  {
    && 0 <= node.rf.lastIncludedIndex <= g.applied <= node.rf.commitIndex && node.kvLast <= node.rf.lastIncludedIndex
    && node.kv == Replay(g.start, g.full[..g.applied])
    && (node.batch.Sending? ==>
          && 0 <= node.batch.upTo - |node.batch.entries| && node.batch.upTo <= node.rf.commitIndex
          && node.batch.entries == g.full[node.batch.upTo - |node.batch.entries|..node.batch.upTo])
    && (node.hand.Holding? && node.hand.msg.Command? ==>
          && 1 <= node.hand.msg.index <= node.rf.commitIndex
          && node.hand.msg.command == g.full[node.hand.msg.index - 1].command)
    && (InStep(node, g.applied) || Overtaken(node, g.applied))
  }

  /** What concerns the log, the snapshots and the service. */
  ghost predicate Body(h: History, n: nat, s: int, node: Node, g: Shadow)
    requires AcksValid(h, n)
  {
    && ViewOk(node.rf, g) && g.start == h.start
    && LogOk(h, node.rf, g.full)
    && AcksOk(h, n, s, node.rf, g.full)
    && CommittedPrefix(h, n, g.full[..g.high], node.rf.currentTerm)
    && SnapshotsOk(h, n, node)
    && DeliveryOk(node, g)
  }

  /** What concerns terms, votes and leadership. */
  ghost predicate Standing(h: History, n: nat, s: int, node: Node, l: Log)
    requires |node.rf.matchIndex| == n
  {
    && LeaderRole(h, s, node.rf, l)
    && CandidateRole(h, n, s, node, l)
    && VotingOk(h, s, node.rf)
    && MatchOk(h, n, s, node.rf)
  }

  ghost predicate NodeOk(h: History, n: nat, s: int, node: Node, g: Shadow)
    requires AcksValid(h, n)
  {
    Shape(n, s, node) && Body(h, n, s, node, g) && Standing(h, n, s, node, g.full)
  }

  // ----- Messages -----

  /** Entries following prev in the leader's log, and a commit index no further than what they reach. */
  ghost predicate AppendOk(h: History, n: nat, a: AppendArgs) {
    && a.term in h.lead && h.lead[a.term].id == a.leader
    && var l := h.lead[a.term].log;
       && a.leaderCommit <= a.prevLogIndex + |a.entries|
       && 0 <= a.leaderCommit <= |l| && CommittedPrefix(h, n, l[..a.leaderCommit], a.term)
       && 0 <= a.prevLogIndex && a.prevLogIndex + |a.entries| <= |l|
       && a.prevLogTerm == TermOf(l, a.prevLogIndex)
       && a.entries == l[a.prevLogIndex..a.prevLogIndex + |a.entries|]
  }

  /** The follower's conflicting term really ends a prefix of that length in that term's leader. */
  ghost predicate ConflictOk(h: History, a: AppendArgs, r: AppendReply) {
    && r.xTerm in h.lead && r.xTerm != a.prevLogTerm
    && 1 <= a.prevLogIndex <= |h.lead[r.xTerm].log|
    && h.lead[r.xTerm].log[a.prevLogIndex - 1].term == r.xTerm
    && r.xIndex <= a.prevLogIndex
  }

  ghost predicate InstallArgsOk(h: History, n: nat, a: SnapshotArgs) {
    && a.term in h.lead && h.lead[a.term].id == a.leader
    && var l := h.lead[a.term].log;
       && 0 <= a.lastIncludedIndex <= |l|
       && SnapshotOf(h, n, l[..a.lastIncludedIndex], Install(a.lastIncludedIndex, a.lastIncludedTerm, a.data), a.term)
  }

  ghost predicate MessageOk(h: History, nodes: seq<Node>, m: Message) {
    var n := |nodes|;
    match m
    case VoteRequest(v) =>
      && (v.candidate, v.term) in h.cand
      && var l := h.cand[(v.candidate, v.term)];
         v.lastLogIndex == |l| && v.lastLogTerm == TermOf(l, |l|)
    case VoteAnswer(from, to, asked, r) =>
      r.granted ==> r.term == asked && (from, r.term) in h.votes && h.votes[(from, r.term)].candidate == to
    case AppendRequest(to, a) => AppendOk(h, n, a) && to != a.leader
    case AppendAnswer(from, to, a, r) =>
      && AppendOk(h, n, a) && to == a.leader != from
      && (r.success ==> Acked(h, from, a.term, a.prevLogIndex + |a.entries|))
      && (r.inconsistent ==> r.xIndex <= |h.lead[a.term].log| + 1)
      && (r.inconsistent && r.xTerm != -1 ==> ConflictOk(h, a, r))
    case SnapshotRequest(to, a) =>
      && InstallArgsOk(h, n, a) && to != a.leader
      && 0 <= a.leader < n && a.lastIncludedIndex <= nodes[a.leader].rf.lastIncludedIndex
    case SnapshotAnswer(from, to, sent, t) =>
      0 <= to < n && sent <= nodes[to].rf.lastIncludedIndex
  }

  ghost predicate Inv(c: Cluster, h: History, gs: seq<Shadow>) {
    var n := |c.nodes|;
    && |gs| == n && h.start == c.start
    && HistoryOk(h, n)
    && (forall s {:trigger gs[s]} :: 0 <= s < n ==> NodeOk(h, n, s, c.nodes[s], gs[s]))
    && (forall m {:trigger MessageOk(h, c.nodes, m)} :: m in c.net ==> MessageOk(h, c.nodes, m))
  }

  // ----- History only grows -----

  /** From h to h2 only what concerns server s and term t changed, and nothing was forgotten. */
  ghost predicate Extends(h: History, h2: History, s: int, t: int) {
    && h2.start == h.start && h.said <= h2.said
    && (forall u {:trigger u in h.lead} {:trigger u in h2.lead} :: u in h.lead ==>
          && u in h2.lead
          && h2.lead[u].id == h.lead[u].id && h2.lead[u].init == h.lead[u].init && h2.lead[u].voters == h.lead[u].voters
          && h.lead[u].log <= h2.lead[u].log
          && (u != t || h.lead[u].id != s ==> h2.lead[u].log == h.lead[u].log))
    && (forall u {:trigger u in h2.lead} :: u in h2.lead && u !in h.lead ==> u == t && h2.lead[u].id == s)
    && (forall k {:trigger k in h.ack} :: k in h.ack ==> k in h2.ack && h.ack[k] <= h2.ack[k])
    && (forall k {:trigger k in h2.ack} :: k in h2.ack && k != (s, t) ==> k in h.ack && h2.ack[k] == h.ack[k])
    && (forall k {:trigger k in h.cand} {:trigger k in h2.cand} :: k in h.cand ==>
      k in h2.cand && h2.cand[k] == h.cand[k])
    && (forall k {:trigger k in h2.cand} :: k in h2.cand && k != (s, t) ==> k in h.cand)
    && (forall k {:trigger k in h.votes} {:trigger k in h2.votes} :: k in h.votes ==>
      k in h2.votes && h2.votes[k] == h.votes[k])
    && (forall k {:trigger k in h2.votes} :: k in h2.votes && k != (s, t) ==> k in h.votes)
  }

  lemma GoodMono(h: History, h2: History, l: Log, s: int, t: int)
    requires Extends(h, h2, s, t) && GoodLog(h, l)
    ensures GoodLog(h2, l)
  {
    forall k | 0 <= k < |l|
      ensures EntryOk(h2, l, k)
    {
      assert EntryOk(h, l, k);
      assert l[k].term in h2.lead;
    }
  }

  lemma CommittedMono(h: History, h2: History, n: nat, u: int, i: int, s: int, t: int)
    requires Extends(h, h2, s, t) && Committed(h, n, u, i)
    ensures Committed(h2, n, u, i) && h2.lead[u].log[..i] == h.lead[u].log[..i]
  {
    assert AckSet(h, n, u, i) <= AckSet(h2, n, u, i);
    SubsetSize(AckSet(h, n, u, i), AckSet(h2, n, u, i));
    assert h.lead[u].log <= h2.lead[u].log;
  }

  lemma PrefixMono(h: History, h2: History, n: nat, p: Log, bound: int, bound2: int, s: int, t: int)
    requires Extends(h, h2, s, t) && CommittedPrefix(h, n, p, bound) && bound <= bound2
    ensures CommittedPrefix(h2, n, p, bound2)
  {
    if p != [] {
      var u, i :| u <= bound && PartOf(h, n, p, u, i);
      CommittedMono(h, h2, n, u, i, s, t);
      assert PartOf(h2, n, p, u, i);
    }
  }

  lemma HoldsMono(h: History, h2: History, l: Log, u: int, i: int, bound: int, bound2: int, s: int, t: int)
    requires Extends(h, h2, s, t) && u in h.lead && 0 <= i <= |h.lead[u].log|
    requires bound <= bound2 && Holds(h, l, u, i, bound)
    ensures u in h2.lead && i <= |h2.lead[u].log| && Holds(h2, l, u, i, bound2)
  {
    assert h2.lead[u].log[..i] == h.lead[u].log[..i];
    if !(h.lead[u].log[..i] <= l) {
      var u2 :| u < u2 <= bound && Lacks(h, u2, u, i);
      assert Lacks(h2, u2, u, i);
    }
  }

  /** What a server acknowledged stays kept while it acknowledges nothing new in those terms. */
  lemma KeptMono(h: History, h2: History, n: nat, v: int, l: Log, bound: int, bound2: int, s: int, t: int)
    requires Extends(h, h2, s, t) && AcksValid(h, n) && AcksValid(h2, n)
    requires Kept(h, n, v, l, bound) && bound <= bound2
    requires v != s || bound2 < t || h2.ack == h.ack
    requires forall u {:trigger (v, u) in h.ack} :: (v, u) in h.ack && u <= bound2 ==> u <= bound
    ensures Kept(h2, n, v, l, bound2)
  {
    forall u, i | (v, u) in h2.ack && u <= bound2 && 0 <= i <= h2.ack[(v, u)]
      ensures Holds(h2, l, u, i, bound2)
    {
      assert (v, u) in h.ack && h2.ack[(v, u)] == h.ack[(v, u)];
      assert Holds(h, l, u, i, bound);
      HoldsMono(h, h2, l, u, i, bound, bound2, s, t);
    }
  }
}
