/** A step changes one replica, one place of the history and adds messages: the rest of the invariant carries over. */
module RaftFrame {
  import opened RaftServer
  import opened RaftCluster
  import opened RaftHistory
  import opened RaftInvariant

  // ----- The history -----

  /** Everything the history says about server s is of terms up to t. */
  ghost predicate NothingAfter(h: History, s: int, t: int) {
    && (forall u {:trigger u in h.lead} :: u in h.lead && s in h.lead[u].voters ==> u <= t)
    && (forall u {:trigger (s, u) in h.cand} :: (s, u) in h.cand ==> u <= t)
    && (forall u {:trigger (s, u) in h.votes} :: (s, u) in h.votes ==> u <= t)
  }

  lemma LeaderFrame(h: History, h2: History, n: nat, u: int, s: int, t: int)
    requires Extends(h, h2, s, t) && AcksValid(h, n) && AcksValid(h2, n) && NothingAfter(h, s, t)
    requires u in h.lead && LeaderOk(h, n, u) && h2.lead[u] == h.lead[u]
    requires (h.lead[u].id, u) !in h2.votes && h2.ack[(h.lead[u].id, u)] == h.ack[(h.lead[u].id, u)]
    ensures LeaderOk(h2, n, u)
  {
    hide GoodLog, Kept, OwnTail, UpToDate;
    var r := h.lead[u];
    GoodMono(h, h2, r.log, s, t);
    forall v | v in r.voters
      ensures VoterOk(h2, n, u, v)
    {
      assert VoterOk(h, n, u, v);
      GoodMono(h, h2, r.voters[v], s, t);
      KeptMono(h, h2, n, v, r.voters[v], u - 1, u - 1, s, t);
    }
  }

  lemma CandidacyFrame(h: History, h2: History, n: nat, c: int, u: int, s: int, t: int)
    requires Extends(h, h2, s, t) && AcksValid(h, n) && AcksValid(h2, n) && NothingAfter(h, s, t)
    requires (c, u) in h.cand && CandidacyOk(h, n, c, u)
    ensures CandidacyOk(h2, n, c, u)
  {
    GoodMono(h, h2, h.cand[(c, u)], s, t);
    if u !in h2.lead { KeptMono(h, h2, n, c, h.cand[(c, u)], u - 1, u - 1, s, t); }
  }

  lemma VoteFrame(h: History, h2: History, n: nat, v: int, u: int, s: int, t: int)
    requires Extends(h, h2, s, t) && AcksValid(h, n) && AcksValid(h2, n) && NothingAfter(h, s, t)
    requires (v, u) in h.votes && VoteOk(h, n, v, u)
    ensures VoteOk(h2, n, v, u)
  {
    GoodMono(h, h2, h.votes[(v, u)].log, s, t);
    if u !in h2.lead { KeptMono(h, h2, n, v, h.votes[(v, u)].log, u - 1, u - 1, s, t); }
  }

  /** What the step added, all of it about (s, t), is all there is to check. */
  lemma HistoryFrame(h: History, h2: History, n: nat, s: int, t: int)
    requires HistoryOk(h, n) && Extends(h, h2, s, t) && AcksValid(h2, n) && NothingAfter(h, s, t)
    requires t in h2.lead ==> LeaderOk(h2, n, t)
    requires (s, t) in h2.cand && (s, t) !in h.cand ==> CandidacyOk(h2, n, s, t)
    requires (s, t) in h2.votes && (s, t) !in h.votes ==> VoteOk(h2, n, s, t)
    ensures HistoryOk(h2, n)
  {
    hide CandidacyOk, VoteOk, GoodLog, Kept, VoterOk, OwnTail;
    forall u | u in h2.lead ensures LeaderOk(h2, n, u) {
      if u != t {
        assert u in h.lead && LeaderOk(h, n, u);
        LeaderFrame(h, h2, n, u, s, t);
      }
    }
    forall c, u | (c, u) in h2.cand ensures CandidacyOk(h2, n, c, u) {
      if (c, u) in h.cand {
        assert CandidacyOk(h, n, c, u);
        CandidacyFrame(h, h2, n, c, u, s, t);
      }
    }
    forall v, u | (v, u) in h2.votes ensures VoteOk(h2, n, v, u) {
      if (v, u) in h.votes {
        assert VoteOk(h, n, v, u);
        VoteFrame(h, h2, n, v, u, s, t);
      }
    }
  }

  // ----- The other replicas -----

  lemma CandidateFrame(h: History, h2: History, n: nat, q: int, node: Node, l: Log, s: int, t: int)
    requires Extends(h, h2, s, t) && CandidateRole(h, n, q, node, l)
    ensures CandidateRole(h2, n, q, node, l)
  {
    var u := node.rf.currentTerm;
    if node.rf.role.Candidate? {
      var more := Granters(h2, n, q, u) - node.awaiting;
      assert Granters(h, n, q, u) - node.awaiting <= more;
      SubsetSize(Granters(h, n, q, u) - node.awaiting, more);
      if u !in h2.lead && l != h.cand[(q, u)] {
        var t1, i :| t1 < u && Missing(h, n, h.cand[(q, u)], t1, i);
        CommittedMono(h, h2, n, t1, i, s, t);
        assert Missing(h2, n, h2.cand[(q, u)], t1, i);
      }
    }
  }

  lemma InstallMono(h: History, h2: History, n: nat, m: ApplyMsg, bound: int, bound2: int, s: int, t: int)
    requires Extends(h, h2, s, t) && InstallOk(h, n, m, bound) && bound <= bound2
    ensures InstallOk(h2, n, m, bound2)
  {
    var p :| SnapshotOf(h, n, p, m, bound);
    PrefixMono(h, h2, n, p, bound, bound2, s, t);
    assert SnapshotOf(h2, n, p, m, bound2);
  }

  lemma SnapshotsFrame(h: History, h2: History, n: nat, node: Node, s: int, t: int)
    requires Extends(h, h2, s, t) && SnapshotsOk(h, n, node)
    ensures SnapshotsOk(h2, n, node)
  {
    var b := node.rf.currentTerm;
    forall m | m in node.pending
      ensures InstallOk(h2, n, m, b)
    {
      InstallMono(h, h2, n, m, b, b, s, t);
    }
    if node.hand.Holding? && node.hand.msg.Install? { InstallMono(h, h2, n, node.hand.msg, b, b, s, t); }
  }

  lemma VotingFrame(h: History, h2: History, n: nat, q: int, node: Node, l: Log, s: int, t: int)
    requires Extends(h, h2, s, t) && AcksValid(h, n) && AcksValid(h2, n) && q != s
    requires |node.rf.matchIndex| == n
    requires LeaderRole(h, q, node.rf, l) && VotingOk(h, q, node.rf) && MatchOk(h, n, q, node.rf)
    ensures LeaderRole(h2, q, node.rf, l) && VotingOk(h2, q, node.rf) && MatchOk(h2, n, q, node.rf)
  {
  }

  lemma NodeFrame(h: History, h2: History, n: nat, q: int, node: Node, g: Shadow, s: int, t: int)
    requires Extends(h, h2, s, t) && AcksValid(h, n) && AcksValid(h2, n) && q != s
    requires NodeOk(h, n, q, node, g)
    ensures NodeOk(h2, n, q, node, g)
  {
    hide GoodLog, CandidateRole, VotingOk, Kept, MatchOk, SnapshotsOk, DeliveryOk, CommittedPrefix, LeaderRole;
    var b := node.rf.currentTerm;
    GoodMono(h, h2, g.full, s, t);
    CandidateFrame(h, h2, n, q, node, g.full, s, t);
    VotingFrame(h, h2, n, q, node, g.full, s, t);
    KeptMono(h, h2, n, q, g.full, b, b, s, t);
    PrefixMono(h, h2, n, g.full[..g.high], b, b, s, t);
    SnapshotsFrame(h, h2, n, node, s, t);
  }

  // ----- Messages already sent -----

  lemma AppendMono(h: History, h2: History, n: nat, a: AppendArgs, s: int, t: int)
    requires Extends(h, h2, s, t) && AppendOk(h, n, a)
    ensures AppendOk(h2, n, a)
  {
    var l, l2 := h.lead[a.term].log, h2.lead[a.term].log;
    assert l <= l2;
    assert l2[..a.leaderCommit] == l[..a.leaderCommit];
    PrefixMono(h, h2, n, l[..a.leaderCommit], a.term, a.term, s, t);
    assert l2[a.prevLogIndex..a.prevLogIndex + |a.entries|] == l[a.prevLogIndex..a.prevLogIndex + |a.entries|];
  }

  lemma InstallArgsMono(h: History, h2: History, n: nat, a: SnapshotArgs, s: int, t: int)
    requires Extends(h, h2, s, t) && InstallArgsOk(h, n, a)
    ensures InstallArgsOk(h2, n, a)
  {
    var l, l2 := h.lead[a.term].log, h2.lead[a.term].log;
    assert l2[..a.lastIncludedIndex] == l[..a.lastIncludedIndex];
    PrefixMono(h, h2, n, l[..a.lastIncludedIndex], a.term, a.term, s, t);
  }

  lemma MessageFrame(h: History, h2: History, nodes: seq<Node>, nodes2: seq<Node>, m: Message, s: int, t: int)
    requires Extends(h, h2, s, t) && |nodes2| == |nodes| && MessageOk(h, nodes, m)
    requires forall q :: 0 <= q < |nodes| ==> nodes[q].rf.lastIncludedIndex <= nodes2[q].rf.lastIncludedIndex
    ensures MessageOk(h2, nodes2, m)
  {
    hide CommittedPrefix, SnapshotOf;
    match m
    case VoteRequest(v) =>
    case VoteAnswer(from, to, asked, r) =>
    case AppendRequest(to, a) => AppendMono(h, h2, |nodes|, a, s, t);
    case AppendAnswer(from, to, a, r) => AppendMono(h, h2, |nodes|, a, s, t);
    case SnapshotRequest(to, a) => InstallArgsMono(h, h2, |nodes|, a, s, t);
    case SnapshotAnswer(from, to, sent, u) =>
  }

  // ----- Putting a step together -----

  /** What a step of replica s has to establish itself. */
  ghost predicate StepOk(c: Cluster, h: History, gs: seq<Shadow>, s: int, node: Node, sent: set<Message>,
                         h2: History, g: Shadow, t: int)
    requires 0 <= s < |c.nodes| == |gs|
  {
    && Extends(h, h2, s, t) && HistoryOk(h2, |c.nodes|)
    && NodeOk(h2, |c.nodes|, s, node, g)
    && c.nodes[s].rf.lastIncludedIndex <= node.rf.lastIncludedIndex
    && c.nodes[s].rf.currentTerm <= node.rf.currentTerm
    && 0 <= gs[s].high <= g.high <= |g.full|
    && gs[s].high <= |gs[s].full| && g.full[..gs[s].high] == gs[s].full[..gs[s].high]
    && forall m {:trigger MessageOk(h2, c.nodes[s := node], m)} :: m in sent ==> MessageOk(h2, c.nodes[s := node], m)
  }

  lemma SameStart(h: History, h2: History, s: int, t: int)
    requires Extends(h, h2, s, t)
    ensures h2.start == h.start && h.said <= h2.said
  {
  }

  lemma StepKeepsInv(c: Cluster, h: History, gs: seq<Shadow>, s: int, node: Node, sent: set<Message>,
                     h2: History, g: Shadow, t: int)
    requires Inv(c, h, gs) && 0 <= s < |c.nodes| && StepOk(c, h, gs, s, node, sent, h2, g, t)
    ensures Inv(Cluster(c.nodes[s := node], c.net + sent, c.start), h2, gs[s := g])
  {
    hide NodeOk, MessageOk, Extends;
    SameStart(h, h2, s, t);
    var n := |c.nodes|;
    var c2 := Cluster(c.nodes[s := node], c.net + sent, c.start);
    forall q | 0 <= q < n
      ensures NodeOk(h2, n, q, c2.nodes[q], gs[s := g][q])
    {
      if q != s {
        assert NodeOk(h, n, q, c.nodes[q], gs[q]);
        NodeFrame(h, h2, n, q, c.nodes[q], gs[q], s, t);
      }
    }
    forall m | m in c2.net
      ensures MessageOk(h2, c2.nodes, m)
    {
      if m !in sent {
        assert MessageOk(h, c.nodes, m);
        MessageFrame(h, h2, c.nodes, c2.nodes, m, s, t);
      }
    }
  }

  /** The second replica differs only in role, votes, indexes kept about peers, and a term no lower. */
  predicate SameBody(node: Node, node2: Node) {
    && node.rf.log == node2.rf.log
    && node.rf.commitIndex == node2.rf.commitIndex && node.rf.lastApplied == node2.rf.lastApplied
    && node.rf.lastIncludedIndex == node2.rf.lastIncludedIndex
    && node.rf.lastIncludedTerm == node2.rf.lastIncludedTerm && node.rf.snapshot == node2.rf.snapshot
    && node.rf.currentTerm <= node2.rf.currentTerm
    && node2.(rf := node.rf, awaiting := node.awaiting) == node
  }

  lemma DeliverySame(node: Node, node2: Node, g: Shadow)
    requires node.rf.commitIndex <= |g.full| && DeliveryOk(node, g) && SameBody(node, node2)
    ensures DeliveryOk(node2, g)
  {
  }

  lemma BodyMono(h: History, h2: History, n: nat, s: int, node: Node, node2: Node, g: Shadow, t: int)
    requires AcksValid(h, n) && AcksValid(h2, n) && Extends(h, h2, s, t) && h2.ack == h.ack
    requires Body(h, n, s, node, g) && SameBody(node, node2)
    ensures Body(h2, n, s, node2, g)
  {
    hide GoodLog, CommittedPrefix, Kept, InstallOk, Extends, Replay, DeliveryOk;
    assert DeliveryOk(node2, g) by { DeliverySame(node, node2, g); }
    var b, b2 := node.rf.currentTerm, node2.rf.currentTerm;
    SameStart(h, h2, s, t);
    GoodMono(h, h2, g.full, s, t);
    KeptMono(h, h2, n, s, g.full, b, b2, s, t);
    PrefixMono(h, h2, n, g.full[..g.high], b, b2, s, t);
    forall m | m in node2.pending
      ensures InstallOk(h2, n, m, b2)
    {
      InstallMono(h, h2, n, m, b, b2, s, t);
    }
    if node.hand.Holding? && node.hand.msg.Install? { InstallMono(h, h2, n, node.hand.msg, b, b2, s, t); }
  }

  /** A step that leaves the history alone. */
  lemma SameHistory(h: History, s: int, t: int)
    ensures Extends(h, h, s, t)
  {
  }

  /** A voter, a candidate and a leader have all reached the term. */
  lemma NothingAfterNow(h: History, n: nat, s: int, rf: Server)
    requires HistoryOk(h, n) && VotingOk(h, s, rf)
    ensures NothingAfter(h, s, rf.currentTerm)
  {
    forall u | u in h.lead && s in h.lead[u].voters
      ensures u <= rf.currentTerm
    {
      assert LeaderOk(h, n, u);
      assert VoterOk(h, n, u, s);
    }
  }
}
