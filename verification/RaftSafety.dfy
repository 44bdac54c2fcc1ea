/** The safety theorems, over every run of the cluster. */
module RaftSafety {
  import opened Service
  import opened RaftServer
  import opened RaftCluster
  import opened RaftHistory
  import opened RaftInvariant
  import opened RaftFrame
  import opened RaftElection
  import opened RaftReplication
  import opened RaftDelivery

  // ----- The invariant holds initially and every step keeps it -----

  ghost function NoShadows(c: Cluster): seq<Shadow> {
    seq(|c.nodes|, i => Shadow([], 0, 0, c.start))
  }

  lemma InitOk(c: Cluster)
    requires Init(c)
    ensures Inv(c, NoHistory(c.start), NoShadows(c))
  {
    var gs := NoShadows(c);
    forall s | 0 <= s < |c.nodes|
      ensures NodeOk(NoHistory(c.start), |c.nodes|, s, c.nodes[s], gs[s])
    {
      assert c.nodes[s] == Starts(c, s);
    }
  }

  /** The step is one the replica can take. */
  ghost predicate Ready(c: Cluster, h: History, gs: seq<Shadow>, s: int, a: Action) {
    Inv(c, h, gs) && 0 <= s < |c.nodes| && Enabled(c, s, a) && Shape(|c.nodes|, s, c.nodes[s])
      && InBounds(c.nodes[s], a) && Tolerates(c.nodes[s])
  }

  ghost predicate Done(c: Cluster, h: History, gs: seq<Shadow>, s: int, a: Action, h2: History, g: Shadow, t: int)
    requires Ready(c, h, gs, s, a)
  {
    var (node, sent) := Step(|c.nodes|, s, c.nodes[s], a);
    StepOk(c, h, gs, s, node, sent, h2, g, t) && h2.said <= h.said + if a.Propose? then {a.command} else {}
  }

  lemma HighInLog(h: History, n: nat, s: int, node: Node, g: Shadow)
    requires AcksValid(h, n) && NodeOk(h, n, s, node, g)
    ensures 0 <= g.high <= |g.full|
  {
    hide GoodLog, Kept, CommittedPrefix, SnapshotsOk, DeliveryOk, Standing;
  }

  lemma TimeoutStep(c: Cluster, h: History, gs: seq<Shadow>, s: int) returns (h2: History)
    requires Ready(c, h, gs, s, Timeout)
    ensures Done(c, h, gs, s, Timeout, h2, gs[s], c.nodes[s].rf.currentTerm + 1)
  {
    hide Body, Standing, LeaderOk, CandidacyOk, VoteOk, Extends, AppendOk, InstallArgsOk, ConflictOk, Tolerates;
    var node, n, g := c.nodes[s], |c.nodes|, gs[s];
    HighInLog(h, n, s, node, g);
    h2 := TimeoutOk(h, n, s, node, g);
    BodyView(h, n, s, node, g);
    ViewEnds(node.rf, g);
  }

  lemma VoteStep(c: Cluster, h: History, gs: seq<Shadow>, s: int, v: VoteArgs) returns (h2: History, t: int)
    requires Ready(c, h, gs, s, OnVote(v))
    ensures Done(c, h, gs, s, OnVote(v), h2, gs[s], t)
  {
    hide Body, Standing, LeaderOk, CandidacyOk, VoteOk, Extends, AppendOk, InstallArgsOk, ConflictOk, Tolerates,
      UpToDate, HandleVote;
    HighInLog(h, |c.nodes|, s, c.nodes[s], gs[s]);
    assert MessageOk(h, c.nodes, VoteRequest(v));
    h2, t := OnVoteOk(h, c.nodes, s, gs[s], v);
  }

  lemma VoteAnswerStep(c: Cluster, h: History, gs: seq<Shadow>, s: int, from: int, asked: int, r: VoteReply)
    returns (h2: History)
    requires Ready(c, h, gs, s, OnVoteAnswer(from, asked, r))
    ensures Done(c, h, gs, s, OnVoteAnswer(from, asked, r), h2, gs[s], c.nodes[s].rf.currentTerm)
  {
    hide Body, Standing, LeaderOk, CandidacyOk, VoteOk, Extends, AppendOk, InstallArgsOk, ConflictOk, Tolerates,
      HandleVoteReply;
    HighInLog(h, |c.nodes|, s, c.nodes[s], gs[s]);
    assert MessageOk(h, c.nodes, VoteAnswer(from, s, asked, r));
    h2 := OnVoteAnswerOk(h, c.nodes, s, gs[s], from, asked, r);
  }

  lemma ElectionStep(c: Cluster, h: History, gs: seq<Shadow>, s: int, a: Action)
    returns (h2: History, g: Shadow, t: int)
    requires Ready(c, h, gs, s, a) && (a.Timeout? || a.OnVote? || a.OnVoteAnswer?)
    ensures Done(c, h, gs, s, a, h2, g, t)
  {
    hide Ready, Done;
    g := Shade(c, h, gs, s, a);
    match a
    case Timeout =>
      h2 := TimeoutStep(c, h, gs, s);
      t := c.nodes[s].rf.currentTerm + 1;
    case OnVote(v) =>
      h2, t := VoteStep(c, h, gs, s, v);
    case OnVoteAnswer(from, asked, r) =>
      h2 := VoteAnswerStep(c, h, gs, s, from, asked, r);
      t := c.nodes[s].rf.currentTerm;
  }

  lemma Shade(c: Cluster, h: History, gs: seq<Shadow>, s: int, a: Action) returns (g: Shadow)
    requires Ready(c, h, gs, s, a)
    ensures 0 <= s < |gs| == |c.nodes| && g == gs[s]
  {
    g := gs[s];
  }

  lemma ReplicationStep(c: Cluster, h: History, gs: seq<Shadow>, s: int, a: Action)
    returns (h2: History, g: Shadow, t: int)
    requires Ready(c, h, gs, s, a) && (a.Propose? || a.OnAppend? || a.OnAppendAnswer? || a.OnSnapshotAnswer?)
    ensures Done(c, h, gs, s, a, h2, g, t)
  {
    hide Body, Standing, LeaderOk, CandidacyOk, VoteOk, Extends, HandleAppend, HandleAppendReply, HandleSnapshotReply;
    var node, n := c.nodes[s], |c.nodes|;
    h2, t := h, node.rf.currentTerm;
    SameHistory(h, s, t);
    HighInLog(h, n, s, node, gs[s]);
    match a
    case Propose(op) =>
      h2, g := ProposeOk(h, n, s, node, gs[s], op);
      assert g.full[..g.high] == gs[s].full[..g.high];
    case OnAppend(args) =>
      assert MessageOk(h, c.nodes, AppendRequest(s, args));
      h2, g, t := OnAppendOk(h, c.nodes, s, gs[s], args);
    case OnAppendAnswer(from, args, r) =>
      assert MessageOk(h, c.nodes, AppendAnswer(from, s, args, r));
      g := OnAppendAnswerOk(h, c.nodes, s, gs[s], from, args, r);
    case OnSnapshotAnswer(from, sent, u) =>
      assert MessageOk(h, c.nodes, SnapshotAnswer(from, s, sent, u));
      g := OnSnapshotAnswerOk(h, c.nodes, s, gs[s], from, sent, u);
  }

  lemma SendStep(c: Cluster, h: History, gs: seq<Shadow>, s: int, a: Action)
    requires Ready(c, h, gs, s, a) && (a.Send? || a.OnSnapshot?)
    ensures Done(c, h, gs, s, a, h, gs[s], c.nodes[s].rf.currentTerm)
  {
    hide Body, LeaderOk, CandidacyOk, VoteOk, Extends, MakeAppendArgs, InstallArgsOk, AppendOk;
    var node, n, g := c.nodes[s], |c.nodes|, gs[s];
    SameHistory(h, s, node.rf.currentTerm);
    HighInLog(h, n, s, node, g);
    match a
    case Send(peer) =>
      LeaderName(h, n, s, node, g.full);
      if node.rf.nextIndex[peer] - 1 < node.rf.lastIncludedIndex {
        SentInstallOk(h, n, s, node, g);
      } else {
        SentAppendOk(h, n, s, node, g, peer);
        AppendNames(node.rf, peer);
        OwnSlotsOk(h, n, s, node, g);
      }
    case OnSnapshot(args) =>
      assert MessageOk(h, c.nodes, SnapshotRequest(s, args));
      OnSnapshotOk(h, c.nodes, s, g, args);
  }

  lemma LeaderName(h: History, n: nat, s: int, node: Node, l: Log)
    requires |node.rf.matchIndex| == n && Standing(h, n, s, node, l) && node.rf.role.Leader?
    ensures node.rf.currentTerm in h.lead && h.lead[node.rf.currentTerm].id == s
  {
  }

  lemma AppendNames(rf: Server, peer: nat)
    requires rf.log != [] && peer < |rf.nextIndex| && rf.nextIndex[peer] - 1 >= rf.lastIncludedIndex
    ensures MakeAppendArgs(rf, peer).leader == rf.me
  {
  }

  lemma HandleStep(c: Cluster, h: History, gs: seq<Shadow>, s: int, takeSnapshot: bool) returns (g: Shadow)
    requires Ready(c, h, gs, s, Handle(takeSnapshot))
    ensures Done(c, h, gs, s, Handle(takeSnapshot), h, g, c.nodes[s].rf.currentTerm)
  {
    hide Body, Standing, LeaderOk, CandidacyOk, VoteOk, Extends, MessageOk, Tolerates, HandleMessage;
    var node, n := c.nodes[s], |c.nodes|;
    g := gs[s];
    SameHistory(h, s, node.rf.currentTerm);
    HighInLog(h, n, s, node, g);
    BodyView(h, n, s, node, g);
    HandleKeeps(node, takeSnapshot);
    if node.hand.msg.Install? {
      g := HandleInstallOk(h, n, s, node, g, takeSnapshot);
    } else {
      if takeSnapshot { HandleCommandSnapshotOk(h, n, s, node, g); } else { HandleCommandOk(h, n, s, node, g); }
      if Due(node) { g := g.(applied := g.applied + 1); }
    }
  }

  lemma HandleKeeps(node: Node, takeSnapshot: bool)
    requires node.hand.Holding? && node.rf.log != [] && InBounds(node, Handle(takeSnapshot))
    requires node.rf.lastIncludedIndex <= node.rf.commitIndex
    ensures var rf, rf2 := node.rf, HandleMessage(node, takeSnapshot).rf;
      rf2.currentTerm == rf.currentTerm && rf.lastIncludedIndex <= rf2.lastIncludedIndex
  {
    hide Fold, HoldsEntry;
  }

  lemma DeliveryStep(c: Cluster, h: History, gs: seq<Shadow>, s: int, a: Action) returns (g: Shadow)
    requires Ready(c, h, gs, s, a)
    requires a.GrabBatch? || a.ReceiveCommand? || a.ReceiveSnapshot? || a.FinishBatch? || a.Crash?
    ensures Done(c, h, gs, s, a, h, g, c.nodes[s].rf.currentTerm)
  {
    hide Body, Standing, LeaderOk, CandidacyOk, VoteOk, Extends, MessageOk, Tolerates;
    var node, n := c.nodes[s], |c.nodes|;
    g := gs[s];
    SameHistory(h, s, node.rf.currentTerm);
    HighInLog(h, n, s, node, g);
    match a
    case GrabBatch => GrabBatchOk(h, n, s, node, g);
    case ReceiveCommand => ReceiveCommandOk(h, n, s, node, g);
    case ReceiveSnapshot(m) => ReceiveSnapshotOk(h, n, s, node, g, m);
    case FinishBatch => FinishBatchOk(h, n, s, node, g);
    case Crash =>
      CrashOk(h, n, s, node, g);
      g := g.(applied := node.rf.lastIncludedIndex);
  }

  lemma AnyStep(c: Cluster, h: History, gs: seq<Shadow>, s: int, a: Action) returns (h2: History, g: Shadow, t: int)
    requires Ready(c, h, gs, s, a)
    ensures Done(c, h, gs, s, a, h2, g, t)
  {
    hide NodeOk, HistoryOk, MessageOk, StepOk, Step, Enabled, InBounds;
    if a.Timeout? || a.OnVote? || a.OnVoteAnswer? {
      h2, g, t := ElectionStep(c, h, gs, s, a);
    } else if a.Propose? || a.OnAppend? || a.OnAppendAnswer? || a.OnSnapshotAnswer? {
      h2, g, t := ReplicationStep(c, h, gs, s, a);
    } else if a.Send? || a.OnSnapshot? {
      SendStep(c, h, gs, s, a);
      h2, g, t := h, gs[s], c.nodes[s].rf.currentTerm;
    } else if a.Handle? {
      g := HandleStep(c, h, gs, s, a.takeSnapshot);
      h2, t := h, c.nodes[s].rf.currentTerm;
    } else {
      g := DeliveryStep(c, h, gs, s, a);
      h2, t := h, c.nodes[s].rf.currentTerm;
    }
  }

  // ----- One log explains every replica at every moment -----

  /**
   The replica's committed entries, its snapshot and its service state all come from `chosen`, and the
   service has applied exactly the entries up to its applied index.
   */
  ghost predicate AgreesWith(start: Data, node: Node, chosen: Log) {
    var rf := node.rf;
    && 0 <= rf.lastIncludedIndex <= rf.commitIndex <= |chosen|
    && rf.log != [] && rf.commitIndex <= LastLogIndex(rf)
    && (forall x {:trigger chosen[x]} :: rf.lastIncludedIndex <= x < rf.commitIndex ==>
          rf.log[x + 1 - rf.lastIncludedIndex] == chosen[x])
    && rf.snapshot == Replay(start, chosen[..rf.lastIncludedIndex])
    && rf.lastIncludedIndex <= AppliedTo(node) <= rf.commitIndex
    && node.kv == Replay(start, chosen[..AppliedTo(node)])
  }

  /** What the history remembers of a replica at some moment. */
  ghost predicate Recorded(h: History, n: nat, chosen: Log, s: int, node: Node) {
    && AgreesWith(h.start, node, chosen)
    && CommittedPrefix(h, n, chosen[..node.rf.commitIndex], node.rf.currentTerm)
    && (node.rf.role.Leader? ==> node.rf.currentTerm in h.lead && h.lead[node.rf.currentTerm].id == s)
  }

  lemma AgreesMono(start: Data, node: Node, chosen: Log, chosen2: Log)
    requires AgreesWith(start, node, chosen) && chosen <= chosen2
    ensures AgreesWith(start, node, chosen2)
  {
    var rf := node.rf;
    assert chosen2[..rf.lastIncludedIndex] == chosen[..rf.lastIncludedIndex];
    assert chosen2[..AppliedTo(node)] == chosen[..AppliedTo(node)];
  }

  lemma RecordedMono(h: History, h2: History, n: nat, chosen: Log, chosen2: Log, q: int, node: Node, s: int, t: int)
    requires Extends(h, h2, s, t) && chosen <= chosen2 && Recorded(h, n, chosen, q, node)
    ensures Recorded(h2, n, chosen2, q, node)
  {
    hide AgreesWith, CommittedPrefix;
    AgreesMono(h.start, node, chosen, chosen2);
    assert node.rf.commitIndex <= |chosen| by { AgreesBounds(h.start, node, chosen); }
    PrefixMono(h, h2, n, chosen[..node.rf.commitIndex], node.rf.currentTerm, node.rf.currentTerm, s, t);
    assert chosen2[..node.rf.commitIndex] == chosen[..node.rf.commitIndex];
  }

  lemma AgreesBounds(start: Data, node: Node, chosen: Log)
    requires AgreesWith(start, node, chosen)
    ensures 0 <= node.rf.commitIndex <= |chosen| && node.rf.commitIndex <= LastLogIndex(node.rf)
  {
  }

  /** A replica that satisfies the invariant agrees with any log that continues its committed part. */
  lemma NodeAgrees(h: History, n: nat, s: int, node: Node, g: Shadow, chosen: Log)
    requires AcksValid(h, n) && NodeOk(h, n, s, node, g) && g.high <= |g.full| && g.full[..g.high] <= chosen
    ensures Recorded(h, n, chosen, s, node)
  {
    hide CommittedPrefix, SnapshotsOk, LogOk, AcksOk, MatchOk, VotingOk, CandidateRole, Replay;
    var rf, c := node.rf, node.rf.commitIndex;
    assert chosen[..c] == g.full[..c];
    CommittedShorter(h, n, g.full[..g.high], c, rf.currentTerm);
    assert g.full[..g.high][..c] == chosen[..c];
    ViewEnds(rf, g);
    forall x | rf.lastIncludedIndex <= x < c
      ensures rf.log[x + 1 - rf.lastIncludedIndex] == chosen[x]
    {
      assert chosen[x] == g.full[x];
    }
    assert chosen[..rf.lastIncludedIndex] == g.full[..rf.lastIncludedIndex];
    assert AppliedTo(node) == g.applied;
    assert chosen[..g.applied] == g.full[..g.applied];
  }

  // ----- What is chosen so far -----

  /** The chosen log has everything the replica ever considered committed. */
  ghost predicate Reaches(chosen: Log, g: Shadow) {
    0 <= g.high <= |g.full| && g.full[..g.high] <= chosen
  }

  /** The invariant, with a committed log that continues what every replica ever considered committed. */
  ghost predicate Underway(c: Cluster, h: History, gs: seq<Shadow>, chosen: Log) {
    && Inv(c, h, gs)
    && (exists b :: CommittedPrefix(h, |c.nodes|, chosen, b))
    && forall s {:trigger gs[s]} :: 0 <= s < |gs| ==> Reaches(chosen, gs[s])
  }

  lemma UnderwayInit(c: Cluster)
    requires Init(c)
    ensures Underway(c, NoHistory(c.start), NoShadows(c), [])
  {
    hide Inv;
    InitOk(c);
    assert CommittedPrefix(NoHistory(c.start), |c.nodes|, [], 0);
  }

  /** A step: nothing chosen is given up, and whatever is newly chosen was proposed. */
  lemma UnderwayStep(c: Cluster, c2: Cluster, s: int, a: Action, h: History, gs: seq<Shadow>, chosen: Log)
    returns (h2: History, gs2: seq<Shadow>, chosen2: Log, t: int)
    requires Underway(c, h, gs, chosen) && NextBy(c, c2, s, a) && Tolerates(c.nodes[s])
    ensures Underway(c2, h2, gs2, chosen2) && chosen <= chosen2 && |c2.nodes| == |c.nodes| && |gs2| == |gs|
    ensures Extends(h, h2, s, t) && h2.said <= h.said + if a.Propose? then {a.command} else {}
    ensures forall q {:trigger gs2[q]} :: 0 <= q < |gs| ==> gs[q].high <= gs2[q].high
  {
    hide NodeOk, HistoryOk, CommittedPrefix, Extends, MessageOk, CandidateState, HandleVote, HandleVoteReply, Start,
      HandleAppend, HandleAppendReply, HandleSnapshotReply, HandleMessage, Restart;
    var g;
    h2, g, t := AnyStep(c, h, gs, s, a);
    var (node, sent) := Step(|c.nodes|, s, c.nodes[s], a);
    StepKeepsInv(c, h, gs, s, node, sent, h2, g, t);
    gs2 := gs[s := g];
    var b :| CommittedPrefix(h, |c.nodes|, chosen, b);
    chosen2 := LongerBy(h, h2, |c.nodes|, s, node, g, chosen, b, t);
    forall q | 0 <= q < |gs2|
      ensures Reaches(chosen2, gs2[q])
    {
      assert Reaches(chosen, gs[q]);
    }
  }

  /** The chosen log after a step: as before, or longer by what the replica newly considers committed. */
  lemma LongerBy(h: History, h2: History, n: nat, s: int, node: Node, g: Shadow, chosen: Log, b: int, t: int)
    returns (chosen2: Log)
    requires HistoryOk(h2, n) && Extends(h, h2, s, t) && CommittedPrefix(h, n, chosen, b) && NodeOk(h2, n, s, node, g)
    ensures Reaches(chosen2, g) && chosen <= chosen2
    ensures exists b2 :: CommittedPrefix(h2, n, chosen2, b2)
  {
    hide GoodLog, Kept, CommittedPrefix, SnapshotsOk, DeliveryOk, Standing, Extends, LeaderOk, CandidacyOk, VoteOk;
    PrefixMono(h, h2, n, chosen, b, b, s, t);
    var b2;
    chosen2, b2 := LongerChosen(h2, n, chosen, g.full[..g.high], b, node.rf.currentTerm);
  }

  /** Two committed prefixes: the longer one continues the other. */
  lemma LongerChosen(h: History, n: nat, p: Log, q: Log, b1: int, b2: int) returns (r: Log, b: int)
    requires HistoryOk(h, n) && CommittedPrefix(h, n, p, b1) && CommittedPrefix(h, n, q, b2)
    ensures p <= r && q <= r && CommittedPrefix(h, n, r, b)
  {
    CommittedComparable(h, n, p, q, b1, b2);
    if p <= q { r, b := q, b2; } else { r, b := p, b1; }
  }

  /** Whatever is chosen was proposed. */
  lemma ChosenWasSaid(c: Cluster, h: History, gs: seq<Shadow>, chosen: Log, k: nat)
    requires Underway(c, h, gs, chosen) && k < |chosen|
    ensures chosen[k].command in h.said
  {
    hide NodeOk, MessageOk, LeaderOk, CandidacyOk, VoteOk, CommittedPrefix;
    var b :| CommittedPrefix(h, |c.nodes|, chosen, b);
    CommittedGood(h, |c.nodes|, chosen, b);
    assert EntryOk(h, chosen, k);
  }

  /** At every moment every replica agrees with the chosen log. */
  lemma UnderwayAgrees(c: Cluster, h: History, gs: seq<Shadow>, chosen: Log, s: int)
    requires Underway(c, h, gs, chosen) && 0 <= s < |c.nodes|
    ensures Remembers(h, |c.nodes|, chosen, s, c.nodes[s], gs[s])
  {
    hide NodeOk, LeaderOk, CandidacyOk, VoteOk, MessageOk, Remembers;
    assert NodeOk(h, |c.nodes|, s, c.nodes[s], gs[s]);
    NewlyRemembers(h, |c.nodes|, chosen, s, c.nodes[s], gs[s]);
  }

  /** A command in hand is the chosen one at its index, and what is too late was applied. */
  lemma HandIsChosen(c: Cluster, h: History, gs: seq<Shadow>, chosen: Log, s: int)
    requires Underway(c, h, gs, chosen) && 0 <= s < |c.nodes|
    ensures var node := c.nodes[s];
      && AgreesWith(c.start, node, chosen) && node.kvLast <= AppliedTo(node)
      && (node.hand.Holding? && node.hand.msg.Command? ==>
            && 1 <= node.hand.msg.index <= |chosen| && node.hand.msg.command == chosen[node.hand.msg.index - 1].command
            && (Due(node) ==> node.hand.msg.index == AppliedTo(node) + 1))
  {
    hide LeaderOk, CandidacyOk, VoteOk, MessageOk, CommittedPrefix, AgreesWith, Standing, LogOk, AcksOk, SnapshotsOk,
      Replay;
    UnderwayAgrees(c, h, gs, chosen, s);
    var node, g := c.nodes[s], gs[s];
    assert NodeOk(h, |c.nodes|, s, node, g) && Reaches(chosen, g);
    AgreesBounds(h.start, node, chosen);
    if node.hand.Holding? && node.hand.msg.Command? {
      assert g.full[..g.high][node.hand.msg.index - 1] == chosen[node.hand.msg.index - 1];
    }
  }

  // ----- Whole runs -----

  ghost predicate Remembers(h: History, n: nat, chosen: Log, s: int, node: Node, g: Shadow) {
    Recorded(h, n, chosen, s, node) && node.rf.commitIndex <= g.high
  }

  /** Some step of the run proposed the command. */
  ghost predicate Proposed(run: seq<Cluster>, cmd: Cmd) {
    exists i, j, s {:trigger NextBy(run[i], run[j], s, Propose(cmd))} ::
      0 <= i && j == i + 1 < |run| && NextBy(run[i], run[j], s, Propose(cmd))
  }

  /** The history explains the run so far. */
  ghost predicate Explains(run: seq<Cluster>, h: History, gs: seq<Shadow>, chosen: Log)
    requires run != []
  {
    var n := |run[0].nodes|;
    && (forall i {:trigger run[i]} :: 0 <= i < |run| ==> |run[i].nodes| == n)
    && Underway(run[|run| - 1], h, gs, chosen) && |gs| == n
    && (forall cmd {:trigger cmd in h.said} :: cmd in h.said ==> Proposed(run, cmd))
    && forall i, s {:trigger run[i].nodes[s]} :: 0 <= i < |run| && 0 <= s < n ==>
         Remembers(h, n, chosen, s, run[i].nodes[s], gs[s])
  }

  lemma ExplainInit(c: Cluster)
    requires Init(c)
    ensures Explains([c], NoHistory(c.start), NoShadows(c), [])
  {
    hide Underway, Remembers;
    UnderwayInit(c);
    forall s | 0 <= s < |c.nodes|
      ensures Remembers(NoHistory(c.start), |c.nodes|, [], s, c.nodes[s], NoShadows(c)[s])
    {
      UnderwayAgrees(c, NoHistory(c.start), NoShadows(c), [], s);
    }
  }

  lemma ExplainStep(run: seq<Cluster>, c2: Cluster, s: int, a: Action, h: History, gs: seq<Shadow>, chosen: Log)
    returns (h2: History, gs2: seq<Shadow>, chosen2: Log)
    requires run != [] && Explains(run, h, gs, chosen) && NextBy(run[|run| - 1], c2, s, a)
    requires Tolerates(run[|run| - 1].nodes[s])
    ensures Explains(run + [c2], h2, gs2, chosen2) && h2.start == h.start
  {
    hide NextBy, Remembers, Underway, Extends;
    var run2, n, t := run + [c2], |run[0].nodes|, 0;
    StepIndex(run[|run| - 1], c2, s, a);
    h2, gs2, chosen2, t := UnderwayStep(run[|run| - 1], c2, s, a, h, gs, chosen);
    SameStart(h, h2, s, t);
    assert run2[|run2| - 1] == c2 && run2[0] == run[0];
    forall i | 0 <= i < |run2|
      ensures |run2[i].nodes| == n
    {
      assert i < |run| ==> run2[i] == run[i];
    }
    forall cmd | cmd in h2.said
      ensures Proposed(run2, cmd)
    {
      if cmd in h.said { StillProposed(run, c2, cmd); } else { JustProposed(run, c2, s, cmd); }
    }
    forall i, q | 0 <= i < |run2| && 0 <= q < n
      ensures Remembers(h2, n, chosen2, q, run2[i].nodes[q], gs2[q])
    {
      if i < |run| {
        assert run2[i].nodes[q] == run[i].nodes[q] && gs[q].high <= gs2[q].high;
        StillRemembers(h, h2, n, chosen, chosen2, q, run[i].nodes[q], gs[q], gs2[q], s, t);
      } else {
        UnderwayAgrees(c2, h2, gs2, chosen2, q);
      }
    }
  }

  lemma StillProposed(run: seq<Cluster>, c2: Cluster, cmd: Cmd)
    requires Proposed(run, cmd)
    ensures Proposed(run + [c2], cmd)
  {
    hide NextBy;
    var run2 := run + [c2];
    var i, j, s :| 0 <= i && j == i + 1 < |run| && NextBy(run[i], run[j], s, Propose(cmd));
    assert NextBy(run2[i], run2[j], s, Propose(cmd));
  }

  lemma JustProposed(run: seq<Cluster>, c2: Cluster, s: int, cmd: Cmd)
    requires run != [] && NextBy(run[|run| - 1], c2, s, Propose(cmd))
    ensures Proposed(run + [c2], cmd)
  {
    hide NextBy;
    var run2 := run + [c2];
    assert NextBy(run2[|run| - 1], run2[|run|], s, Propose(cmd));
  }

  lemma StillRemembers(h: History, h2: History, n: nat, chosen: Log, chosen2: Log, q: int, node: Node, g: Shadow,
                       g2: Shadow, s: int, t: int)
    requires Extends(h, h2, s, t) && chosen <= chosen2 && Remembers(h, n, chosen, q, node, g) && g.high <= g2.high
    ensures Remembers(h2, n, chosen2, q, node, g2)
  {
    hide Extends, Recorded;
    RecordedMono(h, h2, n, chosen, chosen2, q, node, s, t);
  }

  lemma NewlyRemembers(h: History, n: nat, chosen: Log, s: int, node: Node, g: Shadow)
    requires HistoryOk(h, n) && NodeOk(h, n, s, node, g) && Reaches(chosen, g)
    ensures Remembers(h, n, chosen, s, node, g)
  {
    hide NodeOk, Recorded, LeaderOk, CandidacyOk, VoteOk;
    NodeAgrees(h, n, s, node, g, chosen);
    CommitBelowHigh(h, n, s, node, g);
  }

  lemma CommitBelowHigh(h: History, n: nat, s: int, node: Node, g: Shadow)
    requires AcksValid(h, n) && NodeOk(h, n, s, node, g)
    ensures node.rf.commitIndex <= g.high
  {
    hide GoodLog, Kept, CommittedPrefix, SnapshotsOk, DeliveryOk, Standing;
  }

  lemma StepIndex(c: Cluster, c2: Cluster, s: int, a: Action)
    requires NextBy(c, c2, s, a)
    ensures 0 <= s < |c.nodes| && c2.start == c.start
  {
    hide Step, Enabled, InBounds;
  }

  /** Every run is explained by a history. */
  lemma {:induction false} ExplainRun(run: seq<Cluster>) returns (h: History, gs: seq<Shadow>, chosen: Log)
    requires ServedRun(run)
    ensures Explains(run, h, gs, chosen) && h.start == run[0].start
  {
    hide Explains, NextBy, Init, Tolerates;
    if |run| == 1 {
      assert run == [run[0]];
      ExplainInit(run[0]);
      h, gs, chosen := NoHistory(run[0].start), NoShadows(run[0]), [];
    } else {
      var k := |run| - 1;
      var before := run[..k];
      assert ServedRun(before);
      h, gs, chosen := ExplainRun(before);
      assert Next(run[k - 1], run[k]);
      var s, a :| NextBy(run[k - 1], run[k], s, a);
      StepIndex(run[k - 1], run[k], s, a);
      assert Tolerates(run[k - 1].nodes[s]);
      h, gs, chosen := ExplainStep(before, run[k], s, a, h, gs, chosen);
      assert before + [run[k]] == run;
    }
  }

  // ----- Services that check every index -----

  lemma {:induction false} ReplayKind(start: Data, l: Log)
    requires !start.GroupData?
    ensures !Replay(start, l).GroupData?
  {
    if l != [] { ReplayKind(start, l[..|l| - 1]); }
  }

  lemma IndexedTolerates(start: Data, node: Node, chosen: Log)
    requires !start.GroupData? && AgreesWith(start, node, chosen)
    ensures Tolerates(node)
  {
    ReplayKind(start, chosen[..AppliedTo(node)]);
  }

  /** The kvraft service checks the index of every command, and the controller takes no snapshots. */
  lemma {:induction false} IndexedRunIsServed(run: seq<Cluster>)
    requires Run(run) && !run[0].start.GroupData?
    ensures ServedRun(run)
  {
    hide NextBy, Explains, Tolerates;
    var k := |run| - 1;
    if k == 0 {
      forall s | 0 <= s < |run[0].nodes| ensures Tolerates(run[0].nodes[s]) { FreshTolerates(run[0], s); }
    } else {
      var before := run[..k];
      assert Run(before);
      IndexedRunIsServed(before);
      var h, gs, chosen := ExplainRun(before);
      assert Next(run[k - 1], run[k]);
      var s, a :| NextBy(run[k - 1], run[k], s, a);
      StepIndex(run[k - 1], run[k], s, a);
      assert before[k - 1] == run[k - 1] && Tolerates(before[k - 1].nodes[s]);
      h, gs, chosen := ExplainStep(before, run[k], s, a, h, gs, chosen);
      assert before + [run[k]] == run;
      forall i, q | 0 <= i < |run| && 0 <= q < |run[i].nodes|
        ensures Tolerates(run[i].nodes[q])
      {
        if i < k {
          assert run[i] == before[i] && Tolerates(before[i].nodes[q]);
        } else {
          LastAgrees(run, h, gs, chosen, q);
        }
      }
    }
  }

  lemma FreshTolerates(c: Cluster, s: int)
    requires Init(c) && 0 <= s < |c.nodes|
    ensures Tolerates(c.nodes[s])
  {
    assert c.nodes[s] == Starts(c, s);
  }

  lemma LastAgrees(run: seq<Cluster>, h: History, gs: seq<Shadow>, chosen: Log, s: int)
    requires run != [] && Explains(run, h, gs, chosen) && !h.start.GroupData? && 0 <= s < |run[|run| - 1].nodes|
    ensures Tolerates(run[|run| - 1].nodes[s])
  {
    hide Underway, AgreesWith, CommittedPrefix, Tolerates;
    assert |run[|run| - 1].nodes| == |run[0].nodes|;
    assert Remembers(h, |run[0].nodes|, chosen, s, run[|run| - 1].nodes[s], gs[s]);
    IndexedTolerates(h.start, run[|run| - 1].nodes[s], chosen);
  }

  /**
   State Machine Safety and delivery: for every run there is one log from which every replica, at
   every moment, has its committed entries and its snapshot, and whose fold up to the applied index is
   the state of its service; and every entry of it was proposed.
   */
  lemma StateMachineSafety(run: seq<Cluster>) returns (chosen: Log)
    requires ServedRun(run)
    ensures forall i, s {:trigger run[i].nodes[s]} :: 0 <= i < |run| && 0 <= s < |run[i].nodes| ==>
      AgreesWith(run[0].start, run[i].nodes[s], chosen)
    ensures forall k {:trigger chosen[k]} :: 0 <= k < |chosen| ==> Proposed(run, chosen[k].command)
  {
    hide AgreesWith, Underway, Proposed;
    var h, gs;
    h, gs, chosen := ExplainRun(run);
    forall i, s | 0 <= i < |run| && 0 <= s < |run[i].nodes|
      ensures AgreesWith(run[0].start, run[i].nodes[s], chosen)
    {
      SameSize(run, i);
      assert Remembers(h, |run[0].nodes|, chosen, s, run[i].nodes[s], gs[s]);
    }
    forall k | 0 <= k < |chosen|
      ensures Proposed(run, chosen[k].command)
    {
      ChosenWasSaid(run[|run| - 1], h, gs, chosen, k);
    }
  }

  lemma {:induction false} SameSize(run: seq<Cluster>, i: nat)
    requires Run(run) && i < |run|
    ensures |run[i].nodes| == |run[0].nodes|
  {
    if i > 0 {
      SameSize(run, i - 1);
      assert Next(run[i - 1], run[i - 1 + 1]);
    }
  }
}
