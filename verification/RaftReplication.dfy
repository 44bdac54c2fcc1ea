/** Replication steps: proposing, sending, appending, advancing the commit index. */
module RaftReplication {
  import opened Service
  import opened RaftServer
  import opened RaftCluster
  import opened RaftHistory
  import opened RaftInvariant
  import opened RaftFrame
  import opened RaftElection

  // ----- Proposing -----

  ghost function GrowLeader(h: History, s: int, t: int, l: Log, e: Entry): History
    requires t in h.lead
  {
    h.(lead := h.lead[t := h.lead[t].(log := l + [e])], ack := h.ack[(s, t) := |l| + 1], said := h.said + {e.command})
  }

  /** A leader's log grew by one entry of its term. */
  ghost predicate Grown(h: History, h2: History, n: nat, s: int, t: int, l: Log, e: Entry) {
    && AcksValid(h, n) && AcksValid(h2, n) && t in h.lead && h.lead[t].id == s && h.lead[t].log == l
    && GoodLog(h, l) && TermOf(l, |l|) <= t && 1 <= t && e.term == t && e.index == |l| + 1
    && h2 == GrowLeader(h, s, t, l, e) && Extends(h, h2, s, t)
  }

  lemma GrownGood(h: History, h2: History, n: nat, s: int, t: int, l: Log, e: Entry)
    requires Grown(h, h2, n, s, t, l, e)
    ensures GoodLog(h2, l + [e])
  {
    var l2 := l + [e];
    GoodMono(h, h2, l, s, t);
    forall k | 0 <= k < |l2|
      ensures EntryOk(h2, l2, k)
    {
      if k < |l| {
        assert EntryOk(h2, l, k) && l2[..k + 1] == l[..k + 1];
      }
    }
  }

  lemma GrownKept(h: History, h2: History, n: nat, s: int, t: int, l: Log, e: Entry)
    requires Grown(h, h2, n, s, t, l, e) && Kept(h, n, s, l, t)
    ensures Kept(h2, n, s, l + [e], t)
  {
    var l2 := l + [e];
    forall u, i | (s, u) in h2.ack && u <= t && 0 <= i <= h2.ack[(s, u)]
      ensures Holds(h2, l2, u, i, t)
    {
      if u != t {
        assert Holds(h, l, u, i, t);
        HoldsMono(h, h2, l, u, i, t, t, s, t);
        assert l <= l2;
      }
    }
  }

  lemma GrownHistory(h: History, h2: History, n: nat, s: int, t: int, l: Log, e: Entry)
    requires HistoryOk(h, n) && Grown(h, h2, n, s, t, l, e) && NothingAfter(h, s, t)
    ensures HistoryOk(h2, n)
  {
    hide GoodLog, CandidacyOk, VoteOk, LeaderOk;
    assert LeaderOk(h, n, t);
    GrownLeader(h, h2, n, s, t, l, e);
    HistoryFrame(h, h2, n, s, t);
  }

  lemma GrownLeader(h: History, h2: History, n: nat, s: int, t: int, l: Log, e: Entry)
    requires HistoryOk(h, n) && Grown(h, h2, n, s, t, l, e) && NothingAfter(h, s, t) && LeaderOk(h, n, t)
    ensures LeaderOk(h2, n, t)
  {
    hide GoodLog, Kept, UpToDate, CandidacyOk, VoteOk;
    var r := h.lead[t];
    GrownGood(h, h2, n, s, t, l, e);
    forall v | v in r.voters
      ensures VoterOk(h2, n, t, v)
    {
      assert VoterOk(h, n, t, v);
      GoodMono(h, h2, r.voters[v], s, t);
      KeptMono(h, h2, n, v, r.voters[v], t - 1, t - 1, s, t);
    }
    hide HistoryOk, VoterOk;
    assert OwnTail(t, r.init, l + [e]);
  }

  /** The service only looks at committed entries. */
  lemma DeliveryLog(node: Node, node2: Node, g: Shadow, g2: Shadow)
    requires node.rf.commitIndex <= |g.full| && DeliveryOk(node, g)
    requires node.rf.commitIndex <= node2.rf.commitIndex <= |g2.full|
    requires g2.full[..node.rf.commitIndex] == g.full[..node.rf.commitIndex] && g2.applied == g.applied
    requires g2.start == g.start && node2.(rf := node.rf) == node && node2.rf.lastApplied == node.rf.lastApplied
    requires node2.rf.lastIncludedIndex == node.rf.lastIncludedIndex
    ensures DeliveryOk(node2, g2)
  {
    hide Replay;
    var c := node.rf.commitIndex;
    assert forall k :: 0 <= k < c ==> g.full[k] == g.full[..c][k] && g2.full[k] == g2.full[..c][k];
    assert g2.full[..g.applied] == g.full[..g.applied];
    if node.batch.Sending? {
      var a, b := node.batch.upTo - |node.batch.entries|, node.batch.upTo;
      assert g2.full[a..b] == g.full[a..b];
    }
  }

  lemma GrownBody(h: History, h2: History, n: nat, s: int, node: Node, g: Shadow, e: Entry)
    requires Grown(h, h2, n, s, node.rf.currentTerm, g.full, e)
    requires Body(h, n, s, node, g) && node.rf.role.Leader?
    ensures Body(h2, n, s, node.(rf := node.rf.(log := node.rf.log + [e])), g.(full := g.full + [e]))
  {
    hide GoodLog, CommittedPrefix, Kept, InstallOk, Extends, DeliveryOk;
    var t, l2 := node.rf.currentTerm, g.full + [e];
    var node2, g2 := node.(rf := node.rf.(log := node.rf.log + [e])), g.(full := l2);
    GrownGood(h, h2, n, s, t, g.full, e);
    GrownKept(h, h2, n, s, t, g.full, e);
    assert l2[..g.high] == g.full[..g.high];
    PrefixMono(h, h2, n, g.full[..g.high], t, t, s, t);
    SnapshotsFrame(h, h2, n, node, s, t);
    assert l2[..node.rf.commitIndex] == g.full[..node.rf.commitIndex];
    DeliveryLog(node, node2, g, g2);
    assert l2[..node.rf.lastIncludedIndex] == g.full[..node.rf.lastIncludedIndex];
    assert node2.rf.log == [HEAD] + l2[node.rf.lastIncludedIndex..];
  }

  lemma StartGrows(h: History, n: nat, s: int, node: Node, g: Shadow, e: Entry)
    requires HistoryOk(h, n) && NodeOk(h, n, s, node, g) && node.rf.role.Leader?
    requires e.term == node.rf.currentTerm && e.index == node.rf.lastIncludedIndex + |node.rf.log|
    ensures var t := node.rf.currentTerm;
            && t in h.lead && NothingAfter(h, s, t)
            && Grown(h, GrowLeader(h, s, t, g.full, e), n, s, t, g.full, e)
  {
    hide GoodLog, Kept, CommittedPrefix, SnapshotsOk, DeliveryOk, LeaderOk, CandidacyOk, VoteOk, MatchOk;
    var t := node.rf.currentTerm;
    assert LeaderOk(h, n, t);
    LeaderAcksItself(h, n, t);
    NothingAfterNow(h, n, s, node.rf);
  }

  lemma ProposeOk(h: History, n: nat, s: int, node: Node, g: Shadow, cmd: Cmd) returns (h2: History, g2: Shadow)
    requires HistoryOk(h, n) && NodeOk(h, n, s, node, g) && 0 <= s < n
    ensures Extends(h, h2, s, node.rf.currentTerm) && HistoryOk(h2, n)
    ensures NodeOk(h2, n, s, node.(rf := Start(node.rf, cmd)), g2) && h2.said <= h.said + {cmd}
    ensures g.full <= g2.full && g2.high == g.high
  {
    hide GoodLog, Body, LeaderOk, CandidacyOk, VoteOk;
    h2, g2 := h, g;
    var t := node.rf.currentTerm;
    SameHistory(h, s, t);
    if node.rf.role.Leader? {
      var e := Entry(t, cmd, node.rf.lastIncludedIndex + |node.rf.log|);
      StartGrows(h, n, s, node, g, e);
      h2 := GrowLeader(h, s, t, g.full, e);
      g2 := g.(full := g.full + [e]);
      GrownHistory(h, h2, n, s, t, g.full, e);
      GrownBody(h, h2, n, s, node, g, e);
    }
  }

  lemma LeaderAcksItself(h: History, n: nat, t: int)
    requires AcksValid(h, n) && t in h.lead && LeaderOk(h, n, t)
    ensures 1 <= t && 0 <= h.lead[t].id < n
    ensures (h.lead[t].id, t) in h.ack && h.ack[(h.lead[t].id, t)] == |h.lead[t].log|
  {
  }

  // ----- Sending -----

  lemma CommittedShorter(h: History, n: nat, p: Log, k: nat, bound: int)
    requires CommittedPrefix(h, n, p, bound) && k <= |p|
    ensures CommittedPrefix(h, n, p[..k], bound)
  {
    if k > 0 {
      var t, i :| t <= bound && PartOf(h, n, p, t, i);
      assert PartOf(h, n, p[..k], t, i);
    }
  }

  /** Reading the trimmed log is reading the untrimmed one, further on. */
  lemma ViewAt(rf: Server, g: Shadow, pos: nat)
    requires ViewOk(rf, g) && pos < |rf.log|
    ensures rf.lastIncludedIndex + pos <= |g.full|
    ensures TermAt(rf, pos) == TermOf(g.full, rf.lastIncludedIndex + pos)
    ensures rf.log[pos + 1..] == g.full[rf.lastIncludedIndex + pos..]
  {
  }

  /** A leader never offers to commit past what it sends. */
  lemma SentAppendOk(h: History, n: nat, s: int, node: Node, g: Shadow, peer: nat)
    requires AcksValid(h, n) && NodeOk(h, n, s, node, g) && node.rf.role.Leader? && peer < n
    requires node.rf.nextIndex[peer] - 1 >= node.rf.lastIncludedIndex
    ensures AppendOk(h, n, MakeAppendArgs(node.rf, peer))
  {
    hide GoodLog, Kept, CommittedPrefix, SnapshotsOk, DeliveryOk, VotingOk, MatchOk, CandidateRole, AcksOk, ViewOk;
    var rf := node.rf;
    assert h.lead[rf.currentTerm].log == g.full && rf.nextIndex[peer] <= |g.full| + 1;
    SentIsSlice(rf, g, peer);
    CommittedShorter(h, n, g.full[..g.high], rf.commitIndex, rf.currentTerm);
    assert g.full[..g.high][..rf.commitIndex] == g.full[..rf.commitIndex];
  }

  /** What is sent is a slice of the whole log, up to its end. */
  lemma SentIsSlice(rf: Server, g: Shadow, peer: nat)
    requires ViewOk(rf, g) && peer < |rf.nextIndex| && rf.lastIncludedIndex < rf.nextIndex[peer] <= |g.full| + 1
    ensures rf.log != [] && 0 <= rf.commitIndex <= g.high <= |g.full|
    ensures var a := MakeAppendArgs(rf, peer);
            && a.term == rf.currentTerm && a.leader == rf.me && a.leaderCommit == rf.commitIndex
            && 0 <= a.prevLogIndex <= |g.full| && a.prevLogIndex + |a.entries| == |g.full|
              && a.entries == g.full[a.prevLogIndex..]
            && a.prevLogTerm == TermOf(g.full, a.prevLogIndex)
  {
    ViewEnds(rf, g);
    ViewAt(rf, g, rf.nextIndex[peer] - 1 - rf.lastIncludedIndex);
  }

  lemma SentInstallOk(h: History, n: nat, s: int, node: Node, g: Shadow)
    requires AcksValid(h, n) && NodeOk(h, n, s, node, g) && node.rf.role.Leader?
    ensures InstallArgsOk(h, n, MakeSnapshotArgs(node.rf))
  {
    hide GoodLog, Kept, CommittedPrefix, SnapshotsOk, DeliveryOk, VotingOk, MatchOk;
    CommittedShorter(h, n, g.full[..g.high], node.rf.lastIncludedIndex, node.rf.currentTerm);
    assert g.full[..g.high][..node.rf.lastIncludedIndex] == g.full[..node.rf.lastIncludedIndex];
  }

  lemma OwnSlotsOk(h: History, n: nat, s: int, node: Node, g: Shadow)
    requires AcksValid(h, n) && NodeOk(h, n, s, node, g) && 0 <= s < n
    ensures NodeOk(h, n, s, node.(rf := MarkOwnSlots(node.rf)), g)
  {
    hide Body, CandidateRole, VotingOk;
    SameHistory(h, s, 0);
    BodyView(h, n, s, node, g);
    ViewEnds(node.rf, g);
    assert VotingOk(h, s, MarkOwnSlots(node.rf)) by { VotingSame(h, s, node.rf, MarkOwnSlots(node.rf)); }
    assert CandidateRole(h, n, s, node.(rf := MarkOwnSlots(node.rf)), g.full) by {
      CandidateSame(h, n, s, node, node.(rf := MarkOwnSlots(node.rf)), g.full);
    }
    BodyMono(h, h, n, s, node, node.(rf := MarkOwnSlots(node.rf)), g, 0);
  }

  lemma CandidateSame(h: History, n: nat, s: int, node: Node, node2: Node, l: Log)
    requires CandidateRole(h, n, s, node, l) && node2.awaiting == node.awaiting
    requires node2.rf.role == node.rf.role && node2.rf.currentTerm == node.rf.currentTerm
    requires node2.rf.votedFor == node.rf.votedFor && node2.rf.votesNum == node.rf.votesNum
    ensures CandidateRole(h, n, s, node2, l)
  {
  }

  // ----- Appending -----

  /** Merging entries that agree wherever terms agree: nothing is dropped unless something conflicts. */
  lemma {:induction false} MergeShape(have: Log, entries: Log)
    requires forall k {:trigger have[k]} {:trigger entries[k]} ::
      0 <= k < |have| && k < |entries| && have[k].term == entries[k].term ==> have[k] == entries[k]
    ensures var r := Merge(have, entries);
            entries <= r && (r == have || r == entries) && (entries <= have ==> r == have)
  {
    if have != [] && entries != [] && have[0].term == entries[0].term {
      var h1, e1 := have[1..], entries[1..];
      assert forall k :: 0 <= k < |h1| ==> h1[k] == have[k + 1];
      assert forall k :: 0 <= k < |e1| ==> e1[k] == entries[k + 1];
      MergeShape(h1, e1);
      assert have == [have[0]] + h1 && entries == [entries[0]] + e1;
    }
  }

  /** The log after an accepted append, against the leader's log `lead`. */
  ghost predicate Appended(l: Log, lead: Log, upTo: nat, l2: Log)
    requires upTo <= |lead|
  {
    && lead[..upTo] <= l2
    && (l2 == l || l2 == lead[..upTo])
    && (lead[..upTo] <= l ==> l2 == l)
  }

  lemma TailsAgree(h: History, l: Log, lead: Log, prev: nat, entries: Log)
    requires GoodLog(h, l) && GoodLog(h, lead) && prev <= |l| && prev + |entries| <= |lead|
    requires entries == lead[prev..prev + |entries|]
    ensures forall k {:trigger l[prev..][k]} {:trigger entries[k]} ::
              0 <= k < |l[prev..]| && k < |entries| && l[prev..][k].term == entries[k].term ==>
                l[prev..][k] == entries[k]
  {
    forall k | 0 <= k < |l[prev..]| && k < |entries| && l[prev..][k].term == entries[k].term
      ensures l[prev..][k] == entries[k]
    {
      LogMatching(h, l, lead, prev + k + 1);
      assert l[..prev + k + 1][prev + k] == lead[..prev + k + 1][prev + k];
    }
  }

  lemma PutTogether(l: Log, lead: Log, prev: nat, entries: Log, r: Log)
    requires prev <= |l| && prev + |entries| <= |lead| && l[..prev] == lead[..prev]
    requires entries == lead[prev..prev + |entries|]
    requires entries <= r && (r == l[prev..] || r == entries) && (entries <= l[prev..] ==> r == l[prev..])
    ensures Appended(l, lead, prev + |entries|, l[..prev] + r)
  {
    assert lead[..prev + |entries|] == l[..prev] + entries;
    assert l == l[..prev] + l[prev..];
    if lead[..prev + |entries|] <= l {
      assert entries == l[prev..prev + |entries|];
    }
  }

  lemma AppendShape(h: History, l: Log, lead: Log, prev: nat, entries: Log)
    requires GoodLog(h, l) && GoodLog(h, lead) && prev <= |l| && prev + |entries| <= |lead|
    requires TermOf(l, prev) == TermOf(lead, prev) && entries == lead[prev..prev + |entries|]
    ensures Appended(l, lead, prev + |entries|, l[..prev] + Merge(l[prev..], entries))
  {
    hide GoodLog, Appended, Merge;
    LogMatching(h, l, lead, prev);
    TailsAgree(h, l, lead, prev, entries);
    MergeShape(l[prev..], entries);
    PutTogether(l, lead, prev, entries, Merge(l[prev..], entries));
  }

  /** What the old log shares with the leader survives the append. */
  lemma SharedSurvives(l: Log, lead: Log, upTo: nat, l2: Log, p: Log)
    requires upTo <= |lead| && Appended(l, lead, upTo, l2) && p <= l && p <= lead
    ensures p <= l2
  {
    if |p| > upTo {
      assert lead[..upTo] <= l;
    }
  }

  ghost function AddAck(h: History, s: int, t: int, i: int): History {
    h.(ack := h.ack[(s, t) := if (s, t) in h.ack then Max(h.ack[(s, t)], i) else i])
  }

  lemma AckHistory(h: History, n: nat, s: int, t: int, i: int)
    requires HistoryOk(h, n) && NothingAfter(h, s, t) && 0 <= s < n
    requires t in h.lead && 0 <= i <= |h.lead[t].log| && h.lead[t].id != s
    ensures Extends(h, AddAck(h, s, t, i), s, t) && HistoryOk(AddAck(h, s, t, i), n)
  {
    hide GoodLog, VoterOk, CandidacyOk, VoteOk, OwnTail;
    var h2 := AddAck(h, s, t, i);
    assert LeaderOk(h, n, t);
    LeaderFrame(h, h2, n, t, s, t);
    HistoryFrame(h, h2, n, s, t);
  }

  /** Acknowledged entries survive an append: the new leader has them, or it lacks them and overrules. */
  lemma AppendKept(h: History, n: nat, s: int, t: int, l: Log, upTo: nat, l2: Log)
    requires AcksValid(h, n) && t in h.lead && upTo <= |h.lead[t].log| && 0 <= s < n
    requires Kept(h, n, s, l, t) && Appended(l, h.lead[t].log, upTo, l2)
    requires h.lead[t].init <= h.lead[t].log
    requires AcksValid(AddAck(h, s, t, upTo), n)
    ensures Kept(AddAck(h, s, t, upTo), n, s, l2, t)
  {
    var h2 := AddAck(h, s, t, upTo);
    var lead := h.lead[t].log;
    forall u, i | (s, u) in h2.ack && u <= t && 0 <= i <= h2.ack[(s, u)]
      ensures Holds(h2, l2, u, i, t)
    {
      if u == t && i <= upTo {
        assert lead[..i] <= l2;
      } else {
        assert Holds(h, l, u, i, t);
        if h.lead[u].log[..i] <= l && h.lead[u].log[..i] <= lead {
          SharedSurvives(l, lead, upTo, l2, h.lead[u].log[..i]);
        } else if h.lead[u].log[..i] <= l {
          assert Lacks(h2, t, u, i);
        } else {
          var u2 :| u < u2 <= t && Lacks(h, u2, u, i);
          assert Lacks(h2, u2, u, i);
        }
      }
    }
  }

  lemma AppendedGood(h: History, l: Log, lead: Log, upTo: nat, l2: Log)
    requires GoodLog(h, l) && GoodLog(h, lead) && upTo <= |lead| && Appended(l, lead, upTo, l2)
    ensures GoodLog(h, l2)
  {
    GoodPrefix(h, lead, upTo);
  }

  /** The commit index after an accepted append: no lower, and within what agrees with the leader. */
  lemma AppendedCommit(h: History, n: nat, t: int, l: Log, high: nat, upTo: nat, l2: Log, leaderCommit: nat)
    requires HistoryOk(h, n) && t in h.lead && upTo <= |h.lead[t].log| && leaderCommit <= upTo
    requires high <= |l| && CommittedPrefix(h, n, l[..high], t) && Appended(l, h.lead[t].log, upTo, l2)
    requires CommittedPrefix(h, n, h.lead[t].log[..leaderCommit], t)
    ensures high <= |l2| && l2[..high] == l[..high]
    ensures leaderCommit <= |l2| && CommittedPrefix(h, n, l2[..leaderCommit], t)
  {
    hide CommittedPrefix;
    CommittedInLeader(h, n, l[..high], t);
    SharedSurvives(l, h.lead[t].log, upTo, l2, l[..high]);
    assert h.lead[t].log[..leaderCommit] <= l2;
    assert l2[..leaderCommit] == h.lead[t].log[..leaderCommit];
  }

  /** The replica once it accepted the append. */
  ghost function AfterAppend(g: Shadow, l2: Log, commit: int): Shadow {
    Shadow(l2, g.applied, Max(g.high, commit), g.start)
  }

  lemma AppendBody(h: History, n: nat, s: int, node: Node, g: Shadow, l2: Log, upTo: nat, commit: nat)
    requires HistoryOk(h, n) && 0 <= s < n && Body(h, n, s, node, g) && node.rf.currentTerm in h.lead
    requires var t := node.rf.currentTerm;
             && upTo <= |h.lead[t].log| && Appended(g.full, h.lead[t].log, upTo, l2)
             && g.high <= |l2| && l2[..g.high] == g.full[..g.high]
             && node.rf.commitIndex <= commit <= |l2|
             && (commit == node.rf.commitIndex || CommittedPrefix(h, n, l2[..commit], t))
             && Extends(h, AddAck(h, s, t, upTo), s, t) && AcksValid(AddAck(h, s, t, upTo), n)
    ensures var t, first := node.rf.currentTerm, node.rf.lastIncludedIndex;
            first <= |l2| &&
            var rf2 := node.rf.(log := [HEAD] + l2[first..], commitIndex := commit);
            Body(AddAck(h, s, t, upTo), n, s, node.(rf := rf2), AfterAppend(g, l2, commit))
  {
    hide GoodLog, CommittedPrefix, Kept, InstallOk, Extends, DeliveryOk, CandidacyOk, VoteOk, Appended;
    var t, first := node.rf.currentTerm, node.rf.lastIncludedIndex;
    var h2 := AddAck(h, s, t, upTo);
    var node2 := node.(rf := node.rf.(log := [HEAD] + l2[first..], commitIndex := commit));
    var g2 := AfterAppend(g, l2, commit);
    assert LeaderOk(h, n, t);
    AppendedGood(h, g.full, h.lead[t].log, upTo, l2);
    AppendedTerm(h, g.full, t, upTo, l2);
    GoodMono(h, h2, l2, s, t);
    AppendKept(h, n, s, t, g.full, upTo, l2);
    PrefixMono(h, h2, n, l2[..g2.high], t, t, s, t);
    SnapshotsFrame(h, h2, n, node, s, t);
    PrefixEqual(g.full, l2, g.high, node.rf.commitIndex);
    DeliveryLog(node, node2, g, g2);
    PrefixEqual(g.full, l2, g.high, first);
    TermOfPrefix(g.full, l2, first);
  }

  lemma PrefixEqual(a: Log, b: Log, k: nat, j: nat)
    requires j <= k <= |a| && k <= |b| && a[..k] == b[..k]
    ensures a[..j] == b[..j]
  {
    assert a[..j] == a[..k][..j] && b[..j] == b[..k][..j];
  }

  lemma TermOfPrefix(a: Log, b: Log, j: nat)
    requires j <= |a| && j <= |b| && a[..j] == b[..j]
    ensures TermOf(a, j) == TermOf(b, j)
  {
    if j > 0 { assert a[..j][j - 1] == b[..j][j - 1]; }
  }

  lemma AppendedTerm(h: History, l: Log, t: int, upTo: nat, l2: Log)
    requires t in h.lead && OwnTail(t, h.lead[t].init, h.lead[t].log) && 1 <= t
    requires upTo <= |h.lead[t].log| && Appended(l, h.lead[t].log, upTo, l2) && TermOf(l, |l|) <= t
    ensures TermOf(l2, |l2|) <= t
  {
  }

  ghost predicate Accepts(h: History, n: nat, s: int, node: Node, g: Shadow, a: AppendArgs) {
    && HistoryOk(h, n) && 0 <= s < n && NodeOk(h, n, s, node, g) && AppendOk(h, n, a) && s != a.leader
    && a.term == node.rf.currentTerm && node.rf.role.Follower?
    && node.rf.lastIncludedIndex <= a.prevLogIndex <= LastLogIndex(node.rf)
    && TermAt(node.rf, a.prevLogIndex - node.rf.lastIncludedIndex) == a.prevLogTerm
  }

  lemma AcceptedLog(h: History, n: nat, s: int, node: Node, g: Shadow, a: AppendArgs) returns (l2: Log)
    requires Accepts(h, n, s, node, g, a)
    ensures var lead, first, upTo := h.lead[a.term].log, node.rf.lastIncludedIndex, a.prevLogIndex + |a.entries|;
            && upTo <= |lead| && Appended(g.full, lead, upTo, l2)
            && a.prevLogIndex <= |g.full| && l2 == g.full[..a.prevLogIndex] + Merge(g.full[a.prevLogIndex..], a.entries)
            && 0 <= first <= |l2| && HandleAppend(node.rf, a).0.log == [HEAD] + l2[first..]
  {
    hide GoodLog, CommittedPrefix, Kept, SnapshotsOk, DeliveryOk, Appended, LeaderOk, CandidacyOk, VoteOk, Standing,
      Merge, SameTermFirst, AcksOk;
    var t, prev, first := a.term, a.prevLogIndex, node.rf.lastIncludedIndex;
    ViewAt(node.rf, g, prev - first);
    assert LeaderOk(h, n, t);
    LeaderLogGood(h, n, t);
    AppendShape(h, g.full, h.lead[t].log, prev, a.entries);
    l2 := g.full[..prev] + Merge(g.full[prev..], a.entries);
    TrimmedAppend(node.rf.log, g.full, first, prev, Merge(g.full[prev..], a.entries));
  }

  /** The follower's commit index never drops, never passes the prefix it shares with the leader. */
  lemma AcceptedCommit(h: History, n: nat, s: int, node: Node, g: Shadow, a: AppendArgs, l2: Log)
    requires Accepts(h, n, s, node, g, a)
    requires var lead, upTo := h.lead[a.term].log, a.prevLogIndex + |a.entries|;
             upTo <= |lead| && Appended(g.full, lead, upTo, l2)
    ensures var commit := HandleAppend(node.rf, a).0.commitIndex;
            && 0 <= g.high <= |g.full| && g.high <= |l2| && l2[..g.high] == g.full[..g.high]
            && node.rf.commitIndex <= commit <= |l2|
            && (commit == node.rf.commitIndex || CommittedPrefix(h, n, l2[..commit], a.term))
            && (commit == node.rf.commitIndex || l2[..commit] <= h.lead[a.term].log)
  {
    hide GoodLog, CommittedPrefix, Kept, SnapshotsOk, DeliveryOk, LeaderOk, CandidacyOk, VoteOk, Standing;
    var t, upTo := a.term, a.prevLogIndex + |a.entries|;
    var commit := HandleAppend(node.rf, a).0.commitIndex;
    AppendedCommit(h, n, t, g.full, g.high, upTo, l2, a.leaderCommit);
    ViewEnds(node.rf, g);
    if commit != node.rf.commitIndex {
      CommittedShorter(h, n, l2[..a.leaderCommit], commit, t);
      assert l2[..a.leaderCommit][..commit] == l2[..commit];
    }
  }

  /** An accepted append, on a replica that follows the sender's term. */
  lemma AcceptOk(h: History, n: nat, s: int, node: Node, g: Shadow, a: AppendArgs) returns (h2: History, g2: Shadow)
    requires Accepts(h, n, s, node, g, a)
    ensures var (rf, r) := HandleAppend(node.rf, a);
            && Extends(h, h2, s, a.term) && HistoryOk(h2, n) && NodeOk(h2, n, s, node.(rf := rf), g2)
            && Acked(h2, s, a.term, a.prevLogIndex + |a.entries|)
            && 0 <= g.high <= g2.high <= |g2.full| && g.high <= |g.full| && g2.full[..g.high] == g.full[..g.high]
            && h2.said == h.said
  {
    hide Body, CommittedPrefix, Appended, LeaderOk, CandidacyOk, VoteOk, Extends;
    var t, first := a.term, node.rf.lastIncludedIndex;
    var upTo := a.prevLogIndex + |a.entries|;
    var l2 := AcceptedLog(h, n, s, node, g, a);
    AcceptedCommit(h, n, s, node, g, a, l2);
    var rf := HandleAppend(node.rf, a).0;
    NothingAfterNow(h, n, s, node.rf);
    AckHistory(h, n, s, t, upTo);
    h2 := AddAck(h, s, t, upTo);
    g2 := AfterAppend(g, l2, rf.commitIndex);
    AppendBody(h, n, s, node, g, l2, upTo, rf.commitIndex);
    assert rf == node.rf.(log := [HEAD] + l2[first..], commitIndex := rf.commitIndex);
    FollowerStanding(h, h2, n, s, node, node.(rf := rf), g.full, l2);
  }

  lemma TrimmedAppend(log: Log, l: Log, first: nat, prev: nat, r: Log)
    requires first <= prev <= |l| && log == [HEAD] + l[first..]
    ensures log[..prev - first + 1] + r == [HEAD] + (l[..prev] + r)[first..]
  {
  }

  lemma LeaderLogGood(h: History, n: nat, t: int)
    requires AcksValid(h, n) && t in h.lead && LeaderOk(h, n, t)
    ensures GoodLog(h, h.lead[t].log)
  {
  }

  lemma FollowerStanding(h: History, h2: History, n: nat, s: int, node: Node, node2: Node, l: Log, l2: Log)
    requires |node.rf.matchIndex| == n && Standing(h, n, s, node, l) && |node2.rf.matchIndex| == n
    requires node.rf.role.Follower? && node2.rf.role.Follower?
    requires node2.rf.currentTerm == node.rf.currentTerm && node2.rf.votedFor == node.rf.votedFor
    requires h2.lead == h.lead && h2.votes == h.votes && h2.cand == h.cand
    ensures Standing(h2, n, s, node2, l2)
  {
  }

  /** A term conflict tells the leader about a real entry of that term's leader. */
  lemma ConflictReplyOk(h: History, n: nat, s: int, node: Node, g: Shadow, a: AppendArgs)
    requires AcksValid(h, n) && NodeOk(h, n, s, node, g) && AppendOk(h, n, a)
    requires node.rf.lastIncludedIndex <= a.prevLogIndex <= LastLogIndex(node.rf)
    requires TermAt(node.rf, a.prevLogIndex - node.rf.lastIncludedIndex) != a.prevLogTerm
    ensures var pos := a.prevLogIndex - node.rf.lastIncludedIndex;
            ConflictOk(h, a, AppendReply(node.rf.currentTerm, false, true, TermAt(node.rf, pos),
              SameTermFirst(node.rf, pos) + node.rf.lastIncludedIndex))
  {
    hide GoodLog, CommittedPrefix, Kept, SnapshotsOk, DeliveryOk, Standing;
    ViewAt(node.rf, g, a.prevLogIndex - node.rf.lastIncludedIndex);
    if a.prevLogIndex > 0 { EntryInLeader(h, g.full, a.prevLogIndex - 1); }
  }

  lemma EntryInLeader(h: History, l: Log, k: nat)
    requires GoodLog(h, l) && k < |l|
    ensures l[k].term in h.lead && k < |h.lead[l[k].term].log| && h.lead[l[k].term].log[k] == l[k]
  {
    assert EntryOk(h, l, k);
    assert l[..k + 1][k] == h.lead[l[k].term].log[k];
  }

  /** A follower's snapshot ends no later than the log of the leader it hears. */
  lemma SnapshotInLeader(h: History, n: nat, s: int, node: Node, g: Shadow)
    requires HistoryOk(h, n) && NodeOk(h, n, s, node, g) && node.rf.currentTerm in h.lead
    ensures node.rf.lastIncludedIndex <= |h.lead[node.rf.currentTerm].log|
  {
    hide LeaderOk, CandidacyOk, VoteOk, GoodLog, Kept, CommittedPrefix, SnapshotsOk, DeliveryOk, Standing;
    CommittedInLeader(h, n, g.full[..g.high], node.rf.currentTerm);
  }

  /** A leader does not hear appends of its own term. */
  lemma NotTheLeader(h: History, n: nat, s: int, node: Node, g: Shadow, a: AppendArgs)
    requires AcksValid(h, n) && NodeOk(h, n, s, node, g) && AppendOk(h, n, a) && s != a.leader
    requires a.term == node.rf.currentTerm && !node.rf.role.Candidate?
    ensures node.rf.role.Follower?
  {
    hide Body;
  }

  /** What an answer tells the leader is true: of the log, of the snapshot, of the conflict. */
  ghost predicate AnswerOk(h: History, n: nat, from: int, a: AppendArgs, r: AppendReply) {
    && AppendOk(h, n, a) && a.leader != from
    && (r.success ==> Acked(h, from, a.term, a.prevLogIndex + |a.entries|))
    && (r.inconsistent ==> r.xIndex <= |h.lead[a.term].log| + 1)
    && (r.inconsistent && r.xTerm != -1 ==> ConflictOk(h, a, r))
  }

  predicate Rejects(rf: Server, a: AppendArgs)
    requires rf.log != []
  {
    || a.term != rf.currentTerm
    || a.prevLogIndex < rf.lastIncludedIndex || a.prevLogIndex > LastLogIndex(rf)
    || TermAt(rf, a.prevLogIndex - rf.lastIncludedIndex) != a.prevLogTerm
  }

  lemma RejectOk(h: History, n: nat, s: int, node: Node, g: Shadow, a: AppendArgs)
    requires HistoryOk(h, n) && NodeOk(h, n, s, node, g) && AppendOk(h, n, a) && s != a.leader
    requires a.term <= node.rf.currentTerm && (a.term == node.rf.currentTerm ==> !node.rf.role.Candidate?)
    requires Rejects(node.rf, a)
    ensures HandleAppend(node.rf, a).0 == node.rf && AnswerOk(h, n, s, a, HandleAppend(node.rf, a).1)
  {
    hide LeaderOk, CandidacyOk, VoteOk, CommittedPrefix, Body, Standing;
    if a.term == node.rf.currentTerm {
      SnapshotInLeader(h, n, s, node, g);
      var first := node.rf.lastIncludedIndex;
      if first <= a.prevLogIndex <= LastLogIndex(node.rf) { ConflictReplyOk(h, n, s, node, g, a); }
    }
  }

  /** The handler on a replica that has already turned follower if it has to. */
  lemma SettledAppendOk(h: History, n: nat, s: int, node: Node, g: Shadow, a: AppendArgs)
    returns (h2: History, g2: Shadow)
    requires HistoryOk(h, n) && 0 <= s < n && NodeOk(h, n, s, node, g) && AppendOk(h, n, a) && s != a.leader
    requires a.term <= node.rf.currentTerm && (a.term == node.rf.currentTerm ==> !node.rf.role.Candidate?)
    ensures var (rf, r) := HandleAppend(node.rf, a);
            && Extends(h, h2, s, node.rf.currentTerm) && HistoryOk(h2, n) && NodeOk(h2, n, s, node.(rf := rf), g2)
            && AnswerOk(h2, n, s, a, r)
            && node.rf.currentTerm == rf.currentTerm && rf.lastIncludedIndex == node.rf.lastIncludedIndex
            && 0 <= g.high <= g2.high <= |g2.full| && g.high <= |g.full| && g2.full[..g.high] == g.full[..g.high]
            && h2.said == h.said
  {
    hide LeaderOk, CandidacyOk, VoteOk, AppendOk, Body, Standing, Extends;
    BodyView(h, n, s, node, g);
    if Rejects(node.rf, a) {
      SameHistory(h, s, node.rf.currentTerm);
      h2, g2 := h, g;
      RejectOk(h, n, s, node, g, a);
    } else {
      NotTheLeader(h, n, s, node, g, a);
      h2, g2 := AcceptOk(h, n, s, node, g, a);
      AppendMono(h, h2, n, a, s, a.term);
    }
  }

  lemma OnAppendOk(h: History, nodes: seq<Node>, s: int, g: Shadow, a: AppendArgs)
    returns (h2: History, g2: Shadow, t: int)
    requires HistoryOk(h, |nodes|) && 0 <= s < |nodes| && NodeOk(h, |nodes|, s, nodes[s], g)
    requires MessageOk(h, nodes, AppendRequest(s, a))
    ensures var (rf, r) := HandleAppend(nodes[s].rf, a);
            var node2 := nodes[s].(rf := rf);
            && Extends(h, h2, s, t) && HistoryOk(h2, |nodes|) && NodeOk(h2, |nodes|, s, node2, g2)
            && MessageOk(h2, nodes[s := node2], AppendAnswer(s, a.leader, a, r))
            && nodes[s].rf.currentTerm <= rf.currentTerm && rf.lastIncludedIndex == nodes[s].rf.lastIncludedIndex
            && 0 <= g.high <= g2.high <= |g2.full| && g.high <= |g.full| && g2.full[..g.high] == g.full[..g.high]
    ensures h2.said == h.said
  {
    hide Body, Standing, Extends, LeaderOk, CandidacyOk, VoteOk, AppendOk;
    var node, n := nodes[s], |nodes|;
    var node1 := node;
    if a.term > node.rf.currentTerm || (a.term == node.rf.currentTerm && node.rf.role.Candidate?) {
      FollowerOk(h, n, s, node, g, a.term);
      node1 := node.(rf := FollowerState(node.rf, a.term));
    }
    t := node1.rf.currentTerm;
    h2, g2 := SettledAppendOk(h, n, s, node1, g, a);
    assert HandleAppend(node.rf, a) == HandleAppend(node1.rf, a);
  }

  // ----- Advancing the commit index -----

  /** What a leader counts as replicated really was acknowledged in its term. */
  lemma CountedAreAcks(h: History, n: nat, s: int, rf: Server, index: int)
    requires |rf.matchIndex| == n == rf.peers && rf.me == s && rf.role.Leader? && MatchOk(h, n, s, rf)
    requires Acked(h, s, rf.currentTerm, index) && rf.commitIndex < index
    ensures Replicas(rf, index) <= AckSet(h, n, rf.currentTerm, index)
  {
    forall j | j in Replicas(rf, index)
      ensures j in AckSet(h, n, rf.currentTerm, index)
    {
      assert j == s || rf.matchIndex[j] >= index;
    }
  }

  /** What the leader newly commits is of its own term and acknowledged by a majority. */
  lemma NewCommitOk(h: History, n: nat, s: int, node: Node, g: Shadow)
    requires HistoryOk(h, n) && NodeOk(h, n, s, node, g) && node.rf.role.Leader?
    ensures var c := CountReplica(node.rf);
            && node.rf.commitIndex <= c <= |g.full|
            && (c > node.rf.commitIndex ==> Committed(h, n, node.rf.currentTerm, c))
  {
    hide GoodLog, CommittedPrefix, Kept, SnapshotsOk, DeliveryOk, CandidacyOk, VoteOk, LeaderOk, MatchOk, VotingOk;
    var rf, c, t := node.rf, CountReplica(node.rf), node.rf.currentTerm;
    ViewEnds(rf, g);
    if c > rf.commitIndex {
      assert LeaderOk(h, n, t);
      LeaderAcksItself(h, n, t);
      TermOfCommit(h, rf, g, c);
      CountedAreAcks(h, n, s, rf, c);
      SubsetSize(Replicas(rf, c), AckSet(h, n, t, c));
    }
  }

  lemma TermOfCommit(h: History, rf: Server, g: Shadow, c: int)
    requires ViewOk(rf, g) && GoodLog(h, g.full) && TermOf(g.full, |g.full|) <= rf.currentTerm && 1 <= rf.currentTerm
    requires rf.peers == |rf.matchIndex| && c == CountReplica(rf) > rf.commitIndex
    ensures 1 <= c <= |g.full| && TermOf(g.full, c) == rf.currentTerm
  {
    ViewEnds(rf, g);
    var first := FirstOfCurrentTerm(rf, 0);
    ViewAt(rf, g, first);
    var start := first + rf.lastIncludedIndex;
    assert start <= c;
    assert g.full[start - 1].term <= g.full[c - 1].term <= g.full[|g.full| - 1].term;
  }

  lemma CommitAdvanceOk(h: History, n: nat, s: int, node: Node, g: Shadow) returns (g2: Shadow)
    requires HistoryOk(h, n) && NodeOk(h, n, s, node, g) && node.rf.role.Leader?
    ensures NodeOk(h, n, s, node.(rf := node.rf.(commitIndex := CountReplica(node.rf))), g2)
    ensures g2.full == g.full && 0 <= g.high <= g2.high <= |g.full|
    ensures CountReplica(node.rf) > node.rf.commitIndex ==> Committed(h, n, node.rf.currentTerm, CountReplica(node.rf))
  {
    hide GoodLog, CommittedPrefix, Kept, SnapshotsOk, DeliveryOk, CandidacyOk, VoteOk, LeaderOk, VotingOk;
    var c, t := CountReplica(node.rf), node.rf.currentTerm;
    NewCommitOk(h, n, s, node, g);
    g2 := g.(high := Max(g.high, c));
    var node2 := node.(rf := node.rf.(commitIndex := c));
    if c > node.rf.commitIndex {
      CommittedIsPrefix(h, n, g.full, t, c);
    }
    DeliveryLog(node, node2, g, g2);
    assert SnapshotsOk(h, n, node2) by { SnapshotsSame(h, n, node, node2); }
    assert VotingOk(h, s, node2.rf) by { VotingSame(h, s, node.rf, node2.rf); }
  }

  lemma CommittedIsPrefix(h: History, n: nat, l: Log, t: int, c: int)
    requires Committed(h, n, t, c) && h.lead[t].log == l
    ensures CommittedPrefix(h, n, l[..c], t)
  {
    assert PartOf(h, n, l[..c], t, c);
  }

  lemma SnapshotsSame(h: History, n: nat, node: Node, node2: Node)
    requires SnapshotsOk(h, n, node) && node2.pending == node.pending && node2.hand == node.hand
    requires node2.rf.currentTerm == node.rf.currentTerm
    ensures SnapshotsOk(h, n, node2)
  {
  }

  /** A leader learns how far a peer got: by an acknowledgement, or by a snapshot it had already committed. */
  lemma SlotsOk(h: History, n: nat, s: int, node: Node, g: Shadow, peer: int, match': int, next: int)
    requires AcksValid(h, n) && NodeOk(h, n, s, node, g) && node.rf.role.Leader? && 0 <= peer < n
    requires match' <= node.rf.commitIndex || Acked(h, peer, node.rf.currentTerm, match')
             || match' == node.rf.matchIndex[peer]
    requires next <= |g.full| + 1
    ensures NodeOk(h, n, s, node.(rf := node.rf.(matchIndex := node.rf.matchIndex[peer := match'],
                                                 nextIndex := node.rf.nextIndex[peer := next])), g)
  {
    hide Body;
    var node2 := node.(rf := node.rf.(matchIndex := node.rf.matchIndex[peer := match'],
                                      nextIndex := node.rf.nextIndex[peer := next]));
    SameHistory(h, s, 0);
    BodyMono(h, h, n, s, node, node2, g, 0);
  }

  lemma OnAppendAnswerOk(h: History, nodes: seq<Node>, s: int, g: Shadow, from: int, a: AppendArgs, r: AppendReply)
    returns (g2: Shadow)
    requires HistoryOk(h, |nodes|) && 0 <= s < |nodes| && NodeOk(h, |nodes|, s, nodes[s], g)
    requires MessageOk(h, nodes, AppendAnswer(from, s, a, r)) && 0 <= from < |nodes|
    ensures var node2 := nodes[s].(rf := HandleAppendReply(nodes[s].rf, from, a, r));
            && NodeOk(h, |nodes|, s, node2, g2)
            && nodes[s].rf.currentTerm <= node2.rf.currentTerm
            && node2.rf.lastIncludedIndex == nodes[s].rf.lastIncludedIndex
            && (node2.rf.commitIndex > nodes[s].rf.commitIndex ==>
                  node2.rf.role.Leader? && Committed(h, |nodes|, node2.rf.currentTerm, node2.rf.commitIndex))
    ensures g2.full == g.full && 0 <= g.high <= g2.high <= |g.full|
  {
    hide Body, Standing, LeaderOk, CandidacyOk, VoteOk, AppendOk, ConflictOk, CountReplica;
    var node, n := nodes[s], |nodes|;
    var rf := node.rf;
    g2 := g;
    BodyView(h, n, s, node, g);
    if r.term > rf.currentTerm {
      FollowerOk(h, n, s, node, g, r.term);
    } else if rf.role.Leader? && rf.currentTerm == a.term {
      var m := if r.success then a.prevLogIndex + |a.entries| else rf.matchIndex[from];
      var next := if r.success then m + 1
      else if r.inconsistent then BackedUpNext(rf, from, r) else rf.nextIndex[from];
      SlotInRange(h, n, s, node, g, from);
      AnswerInRange(h, nodes, s, g, from, a, r);
      ViewEnds(rf, g);
      SlotsOk(h, n, s, node, g, from, m, next);
      var node1 := node.(rf := rf.(matchIndex := rf.matchIndex[from := m], nextIndex := rf.nextIndex[from := next]));
      assert rf.matchIndex[from := rf.matchIndex[from]] == rf.matchIndex;
      assert rf.nextIndex[from := rf.nextIndex[from]] == rf.nextIndex;
      g2 := CommitAdvanceOk(h, n, s, node1, g);
    }
  }

  /** What a leader believes of a peer is within its own log. */
  lemma SlotInRange(h: History, n: nat, s: int, node: Node, g: Shadow, peer: int)
    requires AcksValid(h, n) && NodeOk(h, n, s, node, g) && node.rf.role.Leader? && 0 <= peer < n && peer != s
    ensures node.rf.currentTerm in h.lead && h.lead[node.rf.currentTerm].log == g.full
    ensures node.rf.nextIndex[peer] <= |g.full| + 1 && node.rf.matchIndex[peer] <= |g.full|
  {
    hide LogOk, AcksOk, CommittedPrefix, SnapshotsOk, DeliveryOk, CandidateRole, VotingOk;
  }

  lemma AnswerInRange(h: History, nodes: seq<Node>, s: int, g: Shadow, from: int, a: AppendArgs, r: AppendReply)
    requires MessageOk(h, nodes, AppendAnswer(from, s, a, r)) && a.term in h.lead && h.lead[a.term].log == g.full
    ensures a.prevLogIndex + |a.entries| <= |g.full| && from != s && (r.inconsistent ==> r.xIndex <= |g.full| + 1)
  {
    hide CommittedPrefix;
  }

  lemma OnSnapshotAnswerOk(h: History, nodes: seq<Node>, s: int, g: Shadow, from: int, sent: int, replyTerm: int)
    returns (g2: Shadow)
    requires HistoryOk(h, |nodes|) && 0 <= s < |nodes| && NodeOk(h, |nodes|, s, nodes[s], g)
    requires MessageOk(h, nodes, SnapshotAnswer(from, s, sent, replyTerm)) && 0 <= from < |nodes|
    ensures var node2 := nodes[s].(rf := HandleSnapshotReply(nodes[s].rf, from, sent, replyTerm));
            && NodeOk(h, |nodes|, s, node2, g2)
            && nodes[s].rf.currentTerm <= node2.rf.currentTerm
            && node2.rf.lastIncludedIndex == nodes[s].rf.lastIncludedIndex
            && (node2.rf.commitIndex > nodes[s].rf.commitIndex ==>
                  node2.rf.role.Leader? && Committed(h, |nodes|, node2.rf.currentTerm, node2.rf.commitIndex))
    ensures g2.full == g.full && 0 <= g.high <= g2.high <= |g.full|
  {
    hide Body, Standing, LeaderOk, CandidacyOk, VoteOk, CountReplica;
    var node, n := nodes[s], |nodes|;
    var rf := node.rf;
    g2 := g;
    BodyView(h, n, s, node, g);
    if replyTerm > rf.currentTerm {
      FollowerOk(h, n, s, node, g, replyTerm);
    } else if rf.role.Leader? {
      var node1 := node;
      if replyTerm == rf.currentTerm && rf.matchIndex[from] <= sent {
        SlotsOk(h, n, s, node, g, from, sent, sent + 1);
        node1 := node.(rf := rf.(matchIndex := rf.matchIndex[from := sent],
          nextIndex := rf.nextIndex[from := sent + 1]));
      }
      g2 := CommitAdvanceOk(h, n, s, node1, g);
    }
  }
}
