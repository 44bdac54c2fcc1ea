/**
 What a cluster can always do: after any run, whatever was lost and whoever crashed, the replicas can start over,
 elect one of them, and have every one of them apply any further commands.
 */
module RaftRecovery {
  import opened Service
  import opened RaftServer
  import opened RaftCluster
  import opened RaftHistory
  import opened RaftInvariant
  import opened RaftSafety
  import opened RaftTheorems
  import opened RaftResponses

  // ----- One more step -----

  ghost function Now(run: seq<Cluster>): Cluster
    requires run != []
  {
    run[|run| - 1]
  }

  ghost predicate Live(run: seq<Cluster>) {
    run != [] && ServedRun(run)
  }

  /** Only replica s has changed, and no message is gone. */
  ghost predicate Moved(c: Cluster, c2: Cluster, s: int, node: Node) {
    && 0 <= s < |c.nodes| && c2.nodes == c.nodes[s := node] && c.net <= c2.net && c2.start == c.start
  }

  /** No command the replica receives is one it already has in a snapshot. */
  ghost predicate InTime(node: Node, a: Action) {
    a.ReceiveCommand? ==> node.batch.Sending? && node.kvLast < node.batch.upTo
  }

  /** The command received next is one past all that was applied. */
  lemma NextIsDue(c: Cluster, h: History, gs: seq<Shadow>, s: int)
    requires Inv(c, h, gs) && 0 <= s < |c.nodes|
    requires var node := c.nodes[s];
      node.hand.Empty? && node.batch.Sending? && node.batch.entries != [] && node.kvLast < node.batch.upTo
    ensures c.nodes[s].kvLast < c.nodes[s].batch.entries[0].index
  {
    hide LeaderOk, CandidacyOk, VoteOk, MessageOk, CommittedPrefix, AcksOk, SnapshotsOk, Standing, Replay;
    var node, g := c.nodes[s], gs[s];
    assert NodeOk(h, |c.nodes|, s, node, g);
    assert EntryOk(h, g.full, node.batch.upTo - |node.batch.entries|);
  }

  /** The service goes on putting up with what it is handed. */
  lemma TolerantAfter(run: seq<Cluster>, s: int, a: Action)
    requires ServedRun(run) && 0 <= s < |Now(run).nodes| && Enabled(Now(run), s, a) && InTime(Now(run).nodes[s], a)
    requires Shape(|Now(run).nodes|, s, Now(run).nodes[s]) && InBounds(Now(run).nodes[s], a)
    ensures Tolerates(Step(|Now(run).nodes|, s, Now(run).nodes[s], a).0)
  {
    hide Explains, Inv, HandleVote, HandleVoteReply, HandleAppend, HandleAppendReply, HandleSnapshotReply, Start, Fold,
      MakeAppendArgs, Snapshot, CondInstallSnapshot, Restart, CandidateState, Range, Next;
    var c := Now(run);
    assert Tolerates(c.nodes[s]);
    var h, gs, _ := At(run, |run| - 1);
    if a.ReceiveCommand? {
      NextIsDue(c, h, gs, s);
    } else if a.ReceiveSnapshot? {
      QueueInstalls(c, h, gs, s, a.msg);
    }
  }

  lemma QueueInstalls(c: Cluster, h: History, gs: seq<Shadow>, s: int, m: ApplyMsg)
    requires Inv(c, h, gs) && 0 <= s < |c.nodes| && m in c.nodes[s].pending
    ensures m.Install?
  {
    hide LeaderOk, CandidacyOk, VoteOk, MessageOk, CommittedPrefix, AcksOk, LogOk, DeliveryOk, Standing, ViewOk;
    assert NodeOk(h, |c.nodes|, s, c.nodes[s], gs[s]);
    assert InstallOk(h, |c.nodes|, m, c.nodes[s].rf.currentTerm);
  }

  lemma Longer(run: seq<Cluster>, c2: Cluster, s: int, a: Action)
    requires ServedRun(run) && NextBy(Now(run), c2, s, a) && Tolerates(c2.nodes[s])
    ensures ServedRun(run + [c2])
  {
    hide Tolerates, Init, Step, Enabled, InBounds;
    var run2, c := run + [c2], Now(run);
    forall i | 0 <= i < |run2| - 1
      ensures Next(run2[i], run2[i + 1])
    {
      if i < |run| - 1 { assert Next(run[i], run[i + 1]); } else { assert NextBy(run2[i], run2[i + 1], s, a); }
    }
    forall i, p | 0 <= i < |run2| && 0 <= p < |run2[i].nodes|
      ensures Tolerates(run2[i].nodes[p])
    {
      if i < |run| {
        assert run2[i].nodes[p] == run[i].nodes[p];
      } else if p != s {
        assert run2[i].nodes[p] == run[|run| - 1].nodes[p];
      }
    }
  }

  /** Any step that can be taken continues the run. */
  lemma Take(run: seq<Cluster>, s: int, a: Action) returns (run2: seq<Cluster>)
    requires Live(run) && 0 <= s < |Now(run).nodes| && Enabled(Now(run), s, a) && InTime(Now(run).nodes[s], a)
    ensures Live(run2) && run < run2 && |run2| == |run| + 1 && NextBy(Now(run), Now(run2), s, a)
  {
    hide Tolerates, HandleVote, HandleVoteReply, HandleAppend, HandleAppendReply, HandleSnapshotReply, Start, Fold,
      MakeAppendArgs, HandleMessage, Restart, CandidateState, Range, Next, Init;
    var c := Now(run);
    NeverOutOfBounds(run, |run| - 1, s, a);
    TolerantAfter(run, s, a);
    var (node, sent) := Step(|c.nodes|, s, c.nodes[s], a);
    var c2 := Cluster(c.nodes[s := node], c.net + sent, c.start);
    assert NextBy(c, c2, s, a);
    Longer(run, c2, s, a);
    run2 := run + [c2];
  }

  // ----- Starting over -----

  /** Nothing is on its way between the peer and its service. */
  predicate Calm(node: Node) {
    node.hand.Empty? && node.batch.Idle? && node.pending == {}
  }

  predicate Rested(node: Node) {
    Calm(node) && node.rf.role.Follower?
  }

  /** A step that is not a new command. */
  ghost predicate Unprompted(c: Cluster, c2: Cluster) {
    exists s, a :: NextBy(c, c2, s, a) && !a.Propose?
  }

  ghost predicate Quiet(run: seq<Cluster>, run2: seq<Cluster>) {
    && run != [] && run <= run2
    && forall i, j {:trigger run2[i], run2[j]} :: |run| - 1 <= i && j == i + 1 < |run2| ==> Unprompted(run2[i], run2[j])
  }

  /** The run goes on, without new commands. */
  ghost predicate Continues(run: seq<Cluster>, run2: seq<Cluster>) {
    Live(run2) && run != [] && run <= run2 && |Now(run2).nodes| == |Now(run).nodes| && Quiet(run, run2)
  }

  lemma QuietOn(run: seq<Cluster>, run1: seq<Cluster>, run2: seq<Cluster>)
    requires run != [] && Quiet(run, run1) && Quiet(run1, run2)
    ensures Quiet(run, run2)
  {
  }

  /** One step, not a new command. */
  lemma Go(run: seq<Cluster>, s: int, a: Action) returns (run2: seq<Cluster>)
    requires Live(run) && 0 <= s < |Now(run).nodes| && Enabled(Now(run), s, a) && InTime(Now(run).nodes[s], a)
    requires !a.Propose?
    ensures Live(run2) && run < run2 && |run2| == |run| + 1 && NextBy(Now(run), Now(run2), s, a) && Quiet(run, run2)
  {
    hide ServedRun, Enabled, Step, InBounds;
    run2 := Take(run, s, a);
    assert Unprompted(run2[|run| - 1], run2[|run|]);
  }

  lemma RestartOne(run: seq<Cluster>, s: int) returns (run2: seq<Cluster>)
    requires Live(run) && 0 <= s < |Now(run).nodes|
    ensures Continues(run, run2) && Moved(Now(run), Now(run2), s, Now(run2).nodes[s]) && Rested(Now(run2).nodes[s])
  {
    hide ServedRun;
    run2 := Go(run, s, Crash);
  }

  /** All replicas from j on restart. */
  lemma {:induction false} RestartAll(run: seq<Cluster>, j: nat) returns (run2: seq<Cluster>)
    requires Live(run) && j <= |Now(run).nodes|
    requires forall p {:trigger Now(run).nodes[p]} :: 0 <= p < j ==> Rested(Now(run).nodes[p])
    ensures Continues(run, run2)
    ensures forall p {:trigger Now(run2).nodes[p]} :: 0 <= p < |Now(run).nodes| ==> Rested(Now(run2).nodes[p])
    decreases |Now(run).nodes| - j
  {
    hide ServedRun, Rested;
    run2 := run;
    if j < |Now(run).nodes| {
      run2 := RestartOne(run, j);
      run2 := RestartAll(run2, j + 1);
    }
  }

  // ----- Electing a leader -----

  /** The replica stands in its term with the log it had, and waits for the votes of those in `left`. */
  predicate Stands(node: Node, rf: Server, left: set<int>) {
    && Calm(node) && node.awaiting == left && node.rf.votesNum == 1
    && node.rf == CandidateState(rf).(currentTerm := node.rf.currentTerm)
  }

  lemma StandOnce(run: seq<Cluster>, m: int) returns (run2: seq<Cluster>)
    requires Live(run) && 0 <= m < |Now(run).nodes|
    requires Calm(Now(run).nodes[m]) && !Now(run).nodes[m].rf.role.Leader?
    ensures Continues(run, run2) && Moved(Now(run), Now(run2), m, Now(run2).nodes[m])
    ensures Stands(Now(run2).nodes[m], Now(run).nodes[m].rf, Range(|Now(run).nodes|) - {m})
    ensures var rf := Now(run2).nodes[m].rf;
      && rf.currentTerm == Now(run).nodes[m].rf.currentTerm + 1
      && rf.log != [] && VoteRequest(MakeVoteArgs(rf)) in Now(run2).net && rf.me == m
  {
    hide ServedRun, MakeVoteArgs;
    run2 := Go(run, m, Timeout);
  }

  /** A replica stands again and again until its term is past the given one. */
  lemma {:induction false} StandPast(run: seq<Cluster>, m: int, t: int) returns (run2: seq<Cluster>)
    requires Live(run) && 0 <= m < |Now(run).nodes|
    requires Calm(Now(run).nodes[m]) && !Now(run).nodes[m].rf.role.Leader?
    ensures Continues(run, run2) && Moved(Now(run), Now(run2), m, Now(run2).nodes[m])
    ensures Stands(Now(run2).nodes[m], Now(run).nodes[m].rf, Range(|Now(run).nodes|) - {m})
    ensures var rf := Now(run2).nodes[m].rf;
      && rf.currentTerm > t && rf.log != [] && VoteRequest(MakeVoteArgs(rf)) in Now(run2).net && rf.me == m
    decreases t - Now(run).nodes[m].rf.currentTerm
  {
    hide ServedRun, MakeVoteArgs;
    run2 := StandOnce(run, m);
    if Now(run2).nodes[m].rf.currentTerm <= t {
      run2 := StandPast(run2, m, t);
    }
  }

  lemma {:induction false} TermsBelow(nodes: seq<Node>) returns (t: int)
    ensures forall p {:trigger nodes[p]} :: 0 <= p < |nodes| ==> nodes[p].rf.currentTerm <= t
  {
    t := 0;
    if nodes != [] {
      t := TermsBelow(nodes[1..]);
      assert forall p :: 1 <= p < |nodes| ==> nodes[p] == nodes[1..][p - 1];
      t := Max(t, nodes[0].rf.currentTerm);
    }
  }

  /** The replica would grant the vote. */
  predicate WillVote(node: Node, v: VoteArgs) {
    && Rested(node) && node.rf.log != []
    && HandleVote(node.rf, v).1 == VoteReply(v.term, true) && v.term > node.rf.currentTerm
  }

  /** The replica follows in the given term. */
  predicate Follows(node: Node, t: int) {
    Rested(node) && node.rf.currentTerm == t
  }

  /** Replica p votes for m, and the vote is counted. */
  lemma VoteOnce(run: seq<Cluster>, m: int, v: VoteArgs, p: int) returns (run2: seq<Cluster>)
    requires Live(run) && 0 <= m < |Now(run).nodes| && 0 <= p < |Now(run).nodes| && p != m
    requires VoteRequest(v) in Now(run).net && v.candidate == m && WillVote(Now(run).nodes[p], v)
    requires Now(run).nodes[m].rf.currentTerm == v.term && p in Now(run).nodes[m].awaiting
    ensures Continues(run, run2) && Now(run).net <= Now(run2).net
    ensures var node, node2 := Now(run).nodes[m], Now(run2).nodes[m];
      && node2 == node.(rf := HandleVoteReply(node.rf, v.term, VoteReply(v.term, true)),
                        awaiting := node.awaiting - {p})
      && Now(run2).nodes == Now(run).nodes[p := Now(run2).nodes[p]][m := node2] && Follows(Now(run2).nodes[p], v.term)
  {
    hide ServedRun, HandleVoteReply, CandidateUpToDate;
    run2 := Go(run, p, OnVote(v));
    run2 := Go(run2, m, OnVoteAnswer(p, v.term, VoteReply(v.term, true)));
  }

  /** Just elected: it sends everyone what follows its log, and knows of nobody what they have. */
  ghost predicate NewLeader(rf: Server) {
    && rf.role.Leader? && rf.peers == |rf.nextIndex| == |rf.matchIndex|
    && forall p {:trigger rf.nextIndex[p]} {:trigger rf.matchIndex[p]} :: 0 <= p < rf.peers ==>
         rf.nextIndex[p] == LastLogIndex(rf) + 1 && rf.matchIndex[p] == -1
  }

  /** Votes of the replicas before j have come in: not yet a majority, or enough. */
  ghost predicate Counting(node: Node, n: nat, m: int, t: int, j: nat) {
    && Calm(node) && node.rf.currentTerm == t && node.rf.peers == n
    && (forall p {:trigger p in node.awaiting} :: j <= p < n && p != m ==> p in node.awaiting)
    && (NewLeader(node.rf)
        || (node.rf.role.Candidate? && node.rf.votesNum == (if j <= m then j + 1 else j) <= n / 2))
  }

  lemma CountOn(node: Node, n: nat, m: int, t: int, j: nat)
    requires Counting(node, n, m, t, j) && j < n && j != m
    ensures var rf := HandleVoteReply(node.rf, t, VoteReply(t, true));
      Counting(node.(rf := rf, awaiting := node.awaiting - {j}), n, m, t, j + 1)
  {
  }

  /** The replicas from j on vote, one after the other. */
  lemma {:induction false} VoteAll(run: seq<Cluster>, m: int, v: VoteArgs, j: nat) returns (run2: seq<Cluster>)
    requires Live(run) && 0 <= m < |Now(run).nodes| && j <= |Now(run).nodes|
    requires VoteRequest(v) in Now(run).net && v.candidate == m
    requires Counting(Now(run).nodes[m], |Now(run).nodes|, m, v.term, j)
    requires forall p {:trigger Now(run).nodes[p]} :: 0 <= p < |Now(run).nodes| && p != m ==>
      if p < j then Follows(Now(run).nodes[p], v.term) else WillVote(Now(run).nodes[p], v)
    ensures Continues(run, run2) && Counting(Now(run2).nodes[m], |Now(run).nodes|, m, v.term, |Now(run).nodes|)
    ensures forall p {:trigger Now(run2).nodes[p]} :: 0 <= p < |Now(run).nodes| && p != m ==>
      Follows(Now(run2).nodes[p], v.term)
    decreases |Now(run).nodes| - j
  {
    hide ServedRun, WillVote, Follows, Counting, HandleVoteReply;
    run2 := run;
    if j < |Now(run).nodes| {
      if j != m {
        assert WillVote(Now(run).nodes[j], v);
        CountOn(Now(run).nodes[m], |Now(run).nodes|, m, v.term, j);
        assert j in Now(run).nodes[m].awaiting && Now(run).nodes[m].rf.currentTerm == v.term by {
          CountingWaits(Now(run).nodes[m], |Now(run).nodes|, m, v.term, j);
        }
        run2 := VoteOnce(run, m, v, j);
      } else {
        CountSelf(Now(run).nodes[m], |Now(run).nodes|, m, v.term);
      }
      run2 := VoteAll(run2, m, v, j + 1);
    }
  }

  lemma CountingWaits(node: Node, n: nat, m: int, t: int, j: nat)
    requires Counting(node, n, m, t, j) && j < n && j != m
    ensures j in node.awaiting && node.rf.currentTerm == t
  {
  }

  lemma CountSelf(node: Node, n: nat, m: nat, t: int)
    requires Counting(node, n, m, t, m)
    ensures Counting(node, n, m, t, m + 1)
  {
  }

  // ----- The leader and its followers -----

  /** Everyone follows m in its term, and nothing else is going on. */
  ghost predicate Led(c: Cluster, m: int) {
    && 0 <= m < |c.nodes| && c.nodes[m].rf.role.Leader? && Calm(c.nodes[m]) && Shape(|c.nodes|, m, c.nodes[m])
    && forall p {:trigger c.nodes[p]} :: 0 <= p < |c.nodes| && p != m ==>
         Follows(c.nodes[p], c.nodes[m].rf.currentTerm)
  }

  /** From any cluster at rest one of the replicas can be elected. */
  lemma Elect(run: seq<Cluster>) returns (run2: seq<Cluster>, m: int)
    requires Live(run) && |Now(run).nodes| >= 2
    requires forall p {:trigger Now(run).nodes[p]} :: 0 <= p < |Now(run).nodes| ==> Rested(Now(run).nodes[p])
    ensures Continues(run, run2) && Led(Now(run2), m) && NewLeader(Now(run2).nodes[m].rf)
  {
    hide ServedRun, HandleVote, MakeVoteArgs, Quiet;
    var c, n := Now(run), |Now(run).nodes|;
    m := CanBeElected(run, |run| - 1, Range(n));
    var t := TermsBelow(c.nodes);
    var run1 := StandPast(run, m, t);
    run2 := run1;
    var rf := Now(run2).nodes[m].rf;
    var v := MakeVoteArgs(rf);
    SameVoteArgs(c.nodes[m].rf, rf);
    assert v == MakeVoteArgs(c.nodes[m].rf).(term := rf.currentTerm, candidate := m);
    forall p | 0 <= p < n && p != m
      ensures WillVote(Now(run2).nodes[p], v)
    {
      assert Now(run2).nodes[p] == c.nodes[p] && p in Range(n) && FreeFor(c.nodes[p].rf, rf.currentTerm, m);
    }
    Shaped(run2, m);
    run2 := VoteAll(run1, m, v, 0);
    QuietOn(run, run1, run2);
    Shaped(run2, m);
  }

  lemma SameVoteArgs(rf: Server, rf2: Server)
    requires rf.log != [] && rf2 == CandidateState(rf).(currentTerm := rf2.currentTerm)
    ensures MakeVoteArgs(rf2) == MakeVoteArgs(rf).(term := rf2.currentTerm, candidate := rf.me)
  {
  }

  lemma Shaped(run: seq<Cluster>, s: int)
    requires Live(run) && 0 <= s < |Now(run).nodes|
    ensures Shape(|Now(run).nodes|, s, Now(run).nodes[s])
  {
    NeverOutOfBounds(run, |run| - 1, s, Crash);
  }

  /** The log has grown by entries of the current term with these commands. */
  predicate GrownBy(rf: Server, rf2: Server, cmds: seq<Cmd>) {
    && rf2 == rf.(log := rf2.log) && rf.log <= rf2.log && |rf2.log| == |rf.log| + |cmds|
    && forall x {:trigger cmds[x]} :: 0 <= x < |cmds| ==>
         rf2.log[|rf.log| + x].command == cmds[x] && rf2.log[|rf.log| + x].term == rf.currentTerm
  }

  lemma ProposeOnce(run: seq<Cluster>, m: int, cmd: Cmd) returns (run2: seq<Cluster>)
    requires Live(run) && Led(Now(run), m)
    ensures Live(run2) && run <= run2 && |run2| == |run| + 1 && NextBy(Now(run), Now(run2), m, Propose(cmd))
    ensures Led(Now(run2), m) && Moved(Now(run), Now(run2), m, Now(run2).nodes[m])
    ensures GrownBy(Now(run).nodes[m].rf, Now(run2).nodes[m].rf, [cmd])
  {
    hide ServedRun;
    run2 := Take(run, m, Propose(cmd));
  }

  /** The leader takes in the commands, one after the other. */
  lemma {:induction false} ProposeAll(run: seq<Cluster>, m: int, cmds: seq<Cmd>) returns (run2: seq<Cluster>)
    requires Live(run) && Led(Now(run), m)
    ensures Live(run2) && run <= run2
    ensures Led(Now(run2), m) && Moved(Now(run), Now(run2), m, Now(run2).nodes[m])
    ensures GrownBy(Now(run).nodes[m].rf, Now(run2).nodes[m].rf, cmds)
    decreases |cmds|
  {
    hide ServedRun, Led;
    run2 := run;
    if cmds == [] {
      LedInRange(Now(run), m);
    } else {
      run2 := ProposeOnce(run, m, cmds[0]);
      ghost var rf := Now(run2).nodes[m].rf;
      run2 := ProposeAll(run2, m, cmds[1..]);
      GrownOn(Now(run).nodes[m].rf, rf, Now(run2).nodes[m].rf, cmds);
    }
  }

  lemma LedInRange(c: Cluster, m: int)
    requires Led(c, m)
    ensures 0 <= m < |c.nodes|
  {
  }

  lemma GrownOn(rf: Server, rf1: Server, rf2: Server, cmds: seq<Cmd>)
    requires cmds != [] && GrownBy(rf, rf1, [cmds[0]]) && GrownBy(rf1, rf2, cmds[1..])
    ensures GrownBy(rf, rf2, cmds)
  {
    forall x | 0 <= x < |cmds|
      ensures rf2.log[|rf.log| + x].command == cmds[x] && rf2.log[|rf.log| + x].term == rf.currentTerm
    {
      if x == 0 {
        assert rf1.log[|rf.log| + 0].command == [cmds[0]][0] && rf2.log[|rf.log|] == rf1.log[|rf.log|];
      } else {
        assert cmds[1..][x - 1] == cmds[x];
      }
    }
  }

  // ----- Bringing a follower up to date -----

  /** The follower has the leader's log, and the leader knows. */
  ghost predicate Reached(c: Cluster, m: int, f: int) {
    && 0 <= m < |c.nodes| && 0 <= f < |c.nodes| && Shape(|c.nodes|, m, c.nodes[m]) && Shape(|c.nodes|, f, c.nodes[f])
    && var rf := c.nodes[m].rf;
       && rf.nextIndex[f] - 1 == rf.matchIndex[f] == LastLogIndex(rf)
       && HoldsEntry(c.nodes[f].rf, LastLogIndex(rf), LastLogTerm(rf))
  }

  /** Of a follower not yet there the leader knows at most a snapshot it has answered for. */
  ghost predicate Behind(c: Cluster, m: int, f: int) {
    && 0 <= m < |c.nodes| && 0 <= f < |c.nodes| && f != m && f < |c.nodes[m].rf.matchIndex|
    && c.nodes[m].rf.matchIndex[f] <= c.nodes[m].rf.lastIncludedIndex
    && c.nodes[m].rf.matchIndex[f] <= c.nodes[f].rf.commitIndex
  }

  /** Only f, and what the leader knows of it, has changed. */
  ghost predicate Tended(c: Cluster, c2: Cluster, m: int, f: int) {
    && |c2.nodes| == |c.nodes| && 0 <= m < |c.nodes|
    && (forall p {:trigger c2.nodes[p]} :: 0 <= p < |c.nodes| && p != m && p != f ==> c2.nodes[p] == c.nodes[p])
    && var rf, rf2 := c.nodes[m].rf, c2.nodes[m].rf;
       && rf2 == rf.(nextIndex := rf2.nextIndex, matchIndex := rf2.matchIndex, commitIndex := rf2.commitIndex)
       && |rf2.nextIndex| == |rf.nextIndex| && |rf2.matchIndex| == |rf.matchIndex|
       && (forall p {:trigger rf2.nextIndex[p]} :: 0 <= p < |rf.nextIndex| && p != m && p != f ==>
             rf2.nextIndex[p] == rf.nextIndex[p])
       && (forall p {:trigger rf2.matchIndex[p]} :: 0 <= p < |rf.matchIndex| && p != m && p != f ==>
             rf2.matchIndex[p] == rf.matchIndex[p])
  }

  /** How far the leader is from an index the follower agrees on. */
  ghost function Distance(c: Cluster, m: int, f: int): nat
    requires 0 <= m < |c.nodes| && 0 <= f < |c.nodes| && f < |c.nodes[m].rf.nextIndex|
  {
    var rf, theirs := c.nodes[m].rf, c.nodes[f].rf;
    var prev := rf.nextIndex[f] - 1;
    if prev < rf.lastIncludedIndex then 2
    else if prev < theirs.lastIncludedIndex then 1
    else if prev <= theirs.commitIndex then 0
    else 3 + Max(prev, 0)
  }

  /** Both logs have an entry there, of the same term. */
  predicate Agree(rf: Server, theirs: Server, index: int) {
    && rf.lastIncludedIndex <= index <= LastLogIndex(rf) && theirs.log != []
    && HoldsEntry(theirs, index, TermAt(rf, index - rf.lastIncludedIndex))
  }

  /** What a follower has committed the leader has too. */
  lemma LeaderAgrees(run: seq<Cluster>, m: int, f: int)
    requires Live(run) && Led(Now(run), m) && 0 <= f < |Now(run).nodes|
    ensures Shape(|Now(run).nodes|, f, Now(run).nodes[f])
    ensures var rf, theirs := Now(run).nodes[m].rf, Now(run).nodes[f].rf;
      && 0 <= theirs.lastIncludedIndex <= theirs.commitIndex <= LastLogIndex(rf)
      && theirs.commitIndex <= LastLogIndex(theirs)
      && forall index {:trigger Agree(rf, theirs, index)} ::
           rf.lastIncludedIndex <= index && theirs.lastIncludedIndex <= index <= theirs.commitIndex ==>
             Agree(rf, theirs, index)
  {
    hide Explains, ServedRun, Inv;
    var h, gs, _ := At(run, |run| - 1);
    AgreesInLed(Now(run), h, gs, m, f);
  }

  lemma AgreesInLed(c: Cluster, h: History, gs: seq<Shadow>, m: int, f: int)
    requires Inv(c, h, gs) && Led(c, m) && 0 <= f < |c.nodes|
    ensures Shape(|c.nodes|, f, c.nodes[f])
    ensures var rf, theirs := c.nodes[m].rf, c.nodes[f].rf;
      && 0 <= theirs.lastIncludedIndex <= theirs.commitIndex <= LastLogIndex(rf)
      && theirs.commitIndex <= LastLogIndex(theirs)
      && forall index {:trigger Agree(rf, theirs, index)} ::
           rf.lastIncludedIndex <= index && theirs.lastIncludedIndex <= index <= theirs.commitIndex ==>
             Agree(rf, theirs, index)
  {
    hide LeaderOk, CandidacyOk, VoteOk, MessageOk, NodeOk, CommittedPrefix;
    var n, l, l2 := |c.nodes|, gs[m].full, gs[f].full;
    assert NodeOk(h, n, m, c.nodes[m], gs[m]) && NodeOk(h, n, f, c.nodes[f], gs[f]);
    NodeLog(h, n, m, c.nodes[m], gs[m]);
    NodeLog(h, n, f, c.nodes[f], gs[f]);
    var p := CommittedPart(h, n, f, c.nodes[f], gs[f]);
    LeaderHasPrefix(h, n, m, c.nodes[m], gs[m], p, c.nodes[f].rf.currentTerm);
    var rf, theirs := c.nodes[m].rf, c.nodes[f].rf;
    forall index | rf.lastIncludedIndex <= index && theirs.lastIncludedIndex <= index <= theirs.commitIndex
      ensures Agree(rf, theirs, index)
    {
      TermInLog(rf, l, index - rf.lastIncludedIndex);
      TermInLog(theirs, l2, index - theirs.lastIncludedIndex);
      assert index > 0 ==> p[index - 1] == l[index - 1] == l2[index - 1];
    }
  }

  lemma CommittedPart(h: History, n: nat, s: int, node: Node, g: Shadow) returns (p: Log)
    requires AcksValid(h, n) && NodeOk(h, n, s, node, g)
    ensures p <= g.full && node.rf.commitIndex <= |p| && CommittedPrefix(h, n, p, node.rf.currentTerm)
  {
    hide GoodLog, Kept, CommittedPrefix, SnapshotsOk, DeliveryOk, Standing;
    p := g.full[..g.high];
  }

  /** A follower of the sender's term takes the request or refuses it; a refusal leaves it as it was. */
  lemma Answers(theirs: Server, a: AppendArgs)
    requires theirs.log != [] && theirs.role.Follower? && theirs.currentTerm == a.term
    ensures var (theirs2, r) := HandleAppend(theirs, a);
      && r.term == a.term && theirs2.role.Follower? && theirs2.currentTerm == a.term
      && (r.success <==> HoldsEntry(theirs, a.prevLogIndex, a.prevLogTerm))
      && (!r.success ==> r.inconsistent && theirs2 == theirs)
  {
    hide Merge, SameTermFirst;
  }

  /** What a leader does with an answer of its own term concerns the peer's slots and its commit index only. */
  lemma Hears(rf: Server, f: nat, a: AppendArgs, r: AppendReply)
    requires rf.log != [] && rf.peers == |rf.matchIndex| == |rf.nextIndex| && f < rf.peers
    requires rf.role.Leader? && rf.currentTerm == a.term == r.term && (r.success || r.inconsistent)
    ensures var rf2 := HandleAppendReply(rf, f, a, r);
      && rf2 == rf.(nextIndex := rf.nextIndex[f := rf2.nextIndex[f]],
                    matchIndex := rf.matchIndex[f := rf2.matchIndex[f]], commitIndex := rf2.commitIndex)
      && (r.success ==> rf2.nextIndex[f] - 1 == rf2.matchIndex[f] == a.prevLogIndex + |a.entries|)
      && (!r.success ==> rf2.matchIndex[f] == rf.matchIndex[f])
      && (!r.success && r.xTerm == -1 ==> rf2.nextIndex[f] == Max(r.xIndex, rf.matchIndex[f] + 1))
  {
    hide CountReplica;
    if !r.success { assert rf.matchIndex == rf.matchIndex[f := rf.matchIndex[f]]; }
  }

  /** A request to the follower, its answer, and what the leader makes of it. */
  lemma Probe(run: seq<Cluster>, m: int, f: int) returns (run2: seq<Cluster>, a: AppendArgs, r: AppendReply)
    requires Live(run) && Led(Now(run), m) && 0 <= f < |Now(run).nodes| && f != m
    requires Now(run).nodes[m].rf.nextIndex[f] - 1 >= Now(run).nodes[m].rf.lastIncludedIndex
    ensures Continues(run, run2) && Led(Now(run2), m) && Tended(Now(run), Now(run2), m, f)
    ensures var rf, rf2, theirs := Now(run).nodes[m].rf, Now(run2).nodes[m].rf, Now(run).nodes[f].rf;
      && theirs.log != [] && a == MakeAppendArgs(rf, f) && (Now(run2).nodes[f].rf, r) == HandleAppend(theirs, a)
      && (r.success ==> rf2.nextIndex[f] - 1 == rf2.matchIndex[f] == a.prevLogIndex + |a.entries|)
      && (!r.success ==>
            && rf2.matchIndex[f] == rf.matchIndex[f]
            && (r.xTerm == -1 ==> rf2.nextIndex[f] == Max(r.xIndex, rf.matchIndex[f] + 1))
            && (r.xTerm != -1 ==> rf2.nextIndex[f] < rf.nextIndex[f]))
  {
    hide ServedRun, HandleAppend, HandleAppendReply, MakeAppendArgs, BackedUpNext, CountReplica, HoldsEntry, Quiet;
    Shaped(run, f);
    var c := Now(run);
    a := MakeAppendArgs(c.nodes[m].rf, f);
    CarriesTerm(c.nodes[m].rf, f);
    Answers(c.nodes[f].rf, a);
    r := HandleAppend(c.nodes[f].rf, a).1;
    var run1 := Go(run, m, Send(f));
    run2 := Go(run1, f, OnAppend(a));
    QuietOn(run, run1, run2);
    run1 := run2;
    Hears(Now(run1).nodes[m].rf, f, a, r);
    if !r.success && r.xTerm != -1 { BackupProgress(run1, |run1| - 1, m, f, a, r); }
    run2 := Go(run1, m, OnAppendAnswer(f, a, r));
    QuietOn(run, run1, run2);
  }

  lemma CarriesTerm(rf: Server, peer: nat)
    requires rf.log != [] && peer < |rf.nextIndex| && rf.nextIndex[peer] - 1 >= rf.lastIncludedIndex
    ensures MakeAppendArgs(rf, peer).term == rf.currentTerm && MakeAppendArgs(rf, peer).leader == rf.me
    ensures MakeAppendArgs(rf, peer).prevLogIndex + 1 == rf.nextIndex[peer]
  {
  }

  lemma {:induction false} MergeTakesAll(have: Log, entries: Log)
    ensures |Merge(have, entries)| >= |entries|
    ensures forall x {:trigger entries[x]} :: 0 <= x < |entries| ==> Merge(have, entries)[x].term == entries[x].term
  {
    if have != [] && entries != [] && have[0].term == entries[0].term {
      MergeTakesAll(have[1..], entries[1..]);
      assert forall x :: 1 <= x < |entries| ==> entries[x] == entries[1..][x - 1];
    }
  }

  /** A follower that takes a request has the last of its entries, or the one before if there is none. */
  lemma TakesEntries(theirs: Server, a: AppendArgs)
    requires theirs.log != [] && HandleAppend(theirs, a).1.success
    ensures var theirs2 := HandleAppend(theirs, a).0;
      && theirs2.log != [] && HoldsEntry(theirs2, a.prevLogIndex + |a.entries|,
           if a.entries == [] then a.prevLogTerm else a.entries[|a.entries| - 1].term)
  {
    hide Merge;
    var pos := a.prevLogIndex - theirs.lastIncludedIndex;
    MergeTakesAll(theirs.log[pos + 1..], a.entries);
  }

  /** A request built from the leader's log, once taken, brings the follower there. */
  lemma TakenReaches(run: seq<Cluster>, m: int, f: int, run2: seq<Cluster>, a: AppendArgs)
    requires Live(run) && Led(Now(run), m) && 0 <= f < |Now(run).nodes| && f != m && Live(run2) && Led(Now(run2), m)
    requires Tended(Now(run), Now(run2), m, f) && Now(run).nodes[f].rf.log != []
    requires var rf, rf2, theirs := Now(run).nodes[m].rf, Now(run2).nodes[m].rf, Now(run).nodes[f].rf;
      && rf.nextIndex[f] - 1 >= rf.lastIncludedIndex && a == MakeAppendArgs(rf, f)
      && HandleAppend(theirs, a).1.success && Now(run2).nodes[f].rf == HandleAppend(theirs, a).0
      && rf2.nextIndex[f] - 1 == rf2.matchIndex[f] == a.prevLogIndex + |a.entries|
    ensures Reached(Now(run2), m, f)
  {
    hide ServedRun, HandleAppend, MakeAppendArgs, Untrimmed;
    var rf := Now(run).nodes[m].rf;
    var l := LogOf(run, |run| - 1, m);
    BuiltCarries(rf, l, f);
    TakesEntries(Now(run).nodes[f].rf, a);
    Shaped(run2, f);
    LastCarried(rf, a, f);
  }

  lemma LastCarried(rf: Server, a: AppendArgs, f: nat)
    requires rf.log != [] && f < |rf.nextIndex| && Carries(rf, f, a)
    ensures LastLogTerm(rf) == if a.entries == [] then a.prevLogTerm else a.entries[|a.entries| - 1].term
  {
  }

  /** A refusal brings the leader closer. */
  lemma RefusedCloser(run: seq<Cluster>, m: int, f: int, run2: seq<Cluster>, a: AppendArgs, r: AppendReply)
    requires Live(run) && Led(Now(run), m) && Behind(Now(run), m, f) && Live(run2) && Led(Now(run2), m)
    requires Tended(Now(run), Now(run2), m, f) && Now(run).nodes[f].rf.log != []
    requires var rf, rf2, theirs := Now(run).nodes[m].rf, Now(run2).nodes[m].rf, Now(run).nodes[f].rf;
      && rf.nextIndex[f] - 1 >= rf.lastIncludedIndex && a == MakeAppendArgs(rf, f)
      && r == HandleAppend(theirs, a).1 && !r.success && Now(run2).nodes[f].rf == theirs
      && rf2.matchIndex[f] == rf.matchIndex[f]
      && (r.xTerm == -1 ==> rf2.nextIndex[f] == Max(r.xIndex, rf.matchIndex[f] + 1))
      && (r.xTerm != -1 ==> rf2.nextIndex[f] < rf.nextIndex[f])
    ensures Behind(Now(run2), m, f) && Distance(Now(run2), m, f) < Distance(Now(run), m, f)
  {
    hide ServedRun, HandleAppend, MakeAppendArgs, Untrimmed;
    var rf, theirs := Now(run).nodes[m].rf, Now(run).nodes[f].rf;
    var l := LogOf(run, |run| - 1, m);
    var l2 := LogOf(run, |run| - 1, f);
    BuiltCarries(rf, l, f);
    Answers(theirs, a);
    LeaderAgrees(run, m, f);
    RefusalMeans(theirs, l2, a);
    TermsNotNegative(theirs, l2, a.prevLogIndex);
    TermsNotNegative(rf, l, a.prevLogIndex);
    assert !Agree(rf, theirs, a.prevLogIndex);
  }

  /** A follower gets a snapshot and, if it has not come that far, installs it. */
  lemma GetsSnapshot(run: seq<Cluster>, f: int, a: SnapshotArgs) returns (run2: seq<Cluster>)
    requires Live(run) && 0 <= f < |Now(run).nodes| && Follows(Now(run).nodes[f], a.term)
    requires SnapshotRequest(f, a) in Now(run).net
    ensures Continues(run, run2) && Moved(Now(run), Now(run2), f, Now(run2).nodes[f])
    ensures Follows(Now(run2).nodes[f], a.term)
    ensures SnapshotAnswer(f, a.leader, a.lastIncludedIndex, a.term) in Now(run2).net
    ensures a.lastIncludedIndex <= Now(run2).nodes[f].rf.commitIndex
    ensures a.lastIncludedIndex > Now(run).nodes[f].rf.commitIndex ==>
      Now(run2).nodes[f].rf.lastIncludedIndex == a.lastIncludedIndex
  {
    hide ServedRun, HoldsEntry, Quiet;
    var m := Install(a.lastIncludedIndex, a.lastIncludedTerm, a.data);
    run2 := Go(run, f, OnSnapshot(a));
    if a.lastIncludedIndex > Now(run).nodes[f].rf.commitIndex {
      var run1 := Go(run2, f, ReceiveSnapshot(m));
      QuietOn(run, run2, run1);
      run2 := Go(run1, f, Handle(false));
      QuietOn(run, run1, run2);
    }
  }

  /** A follower whose next entry is compacted away gets the snapshot instead. */
  lemma SendSnapshot(run: seq<Cluster>, m: int, f: int) returns (run2: seq<Cluster>)
    requires Live(run) && Led(Now(run), m) && Behind(Now(run), m, f)
    requires Now(run).nodes[m].rf.nextIndex[f] - 1 < Now(run).nodes[m].rf.lastIncludedIndex
    ensures Continues(run, run2) && Led(Now(run2), m) && Tended(Now(run), Now(run2), m, f)
    ensures Behind(Now(run2), m, f) && Distance(Now(run2), m, f) < Distance(Now(run), m, f)
  {
    hide ServedRun, HandleSnapshot, CountReplica, Quiet;
    var rf := Now(run).nodes[m].rf;
    var run1 := Go(run, m, Send(f));
    run2 := GetsSnapshot(run1, f, MakeSnapshotArgs(rf));
    QuietOn(run, run1, run2);
    run1 := run2;
    LeaderAgrees(run1, m, f);
    run2 := Go(run1, m, OnSnapshotAnswer(f, rf.lastIncludedIndex, rf.currentTerm));
    QuietOn(run, run1, run2);
  }

  /** A follower is brought up to date. */
  lemma {:induction false} CatchUp(run: seq<Cluster>, m: int, f: int) returns (run2: seq<Cluster>)
    requires Live(run) && Led(Now(run), m) && Behind(Now(run), m, f)
    ensures Continues(run, run2) && Led(Now(run2), m) && Tended(Now(run), Now(run2), m, f) && Reached(Now(run2), m, f)
    decreases Distance(Now(run), m, f)
  {
    hide ServedRun, HandleAppend, MakeAppendArgs, Distance;
    if Now(run).nodes[m].rf.nextIndex[f] - 1 < Now(run).nodes[m].rf.lastIncludedIndex {
      run2 := SendSnapshot(run, m, f);
      run2 := CatchUp(run2, m, f);
    } else {
      var a, r;
      run2, a, r := Probe(run, m, f);
      if r.success {
        TakenReaches(run, m, f, run2, a);
      } else {
        Shaped(run, f);
        CarriesTerm(Now(run).nodes[m].rf, f);
        Answers(Now(run).nodes[f].rf, a);
        RefusedCloser(run, m, f, run2, a, r);
        run2 := CatchUp(run2, m, f);
      }
    }
  }

  /** The followers from j on are brought up to date. */
  lemma {:induction false} CatchUpAll(run: seq<Cluster>, m: int, j: nat) returns (run2: seq<Cluster>)
    requires Live(run) && Led(Now(run), m) && j <= |Now(run).nodes|
    requires forall p {:trigger Reached(Now(run), m, p)} :: 0 <= p < j && p != m ==> Reached(Now(run), m, p)
    requires forall p {:trigger Behind(Now(run), m, p)} :: j <= p < |Now(run).nodes| && p != m ==>
      Behind(Now(run), m, p)
    ensures Continues(run, run2) && Led(Now(run2), m) && SameLog(Now(run), Now(run2), m)
    ensures forall p {:trigger Reached(Now(run2), m, p)} :: 0 <= p < |Now(run).nodes| && p != m ==>
      Reached(Now(run2), m, p)
    decreases |Now(run).nodes| - j
  {
    hide ServedRun, Led, Reached, Behind, Tended;
    run2 := run;
    LedInRange(Now(run), m);
    if j < |Now(run).nodes| {
      if j != m {
        run2 := CatchUp(run, m, j);
        TendedKeeps(Now(run), Now(run2), m, j);
      }
      run2 := CatchUpAll(run2, m, j + 1);
    }
  }

  /** The leader's log has not changed. */
  ghost predicate SameLog(c: Cluster, c2: Cluster, m: int) {
    && |c2.nodes| == |c.nodes| && 0 <= m < |c.nodes|
    && c2.nodes[m].rf.log == c.nodes[m].rf.log
    && c2.nodes[m].rf.lastIncludedIndex == c.nodes[m].rf.lastIncludedIndex
    && c2.nodes[m].rf.lastIncludedTerm == c.nodes[m].rf.lastIncludedTerm
    && c2.nodes[m].rf.currentTerm == c.nodes[m].rf.currentTerm
    && c2.nodes[m].rf.lastApplied == c.nodes[m].rf.lastApplied
  }

  lemma TendedKeeps(c: Cluster, c2: Cluster, m: int, f: int)
    requires Tended(c, c2, m, f)
    ensures SameLog(c, c2, m)
    ensures forall p {:trigger Reached(c2, m, p)} :: 0 <= p < |c.nodes| && p != m && p != f && Reached(c, m, p) ==>
      Reached(c2, m, p)
    ensures forall p {:trigger Behind(c2, m, p)} :: 0 <= p < |c.nodes| && p != m && p != f && Behind(c, m, p) ==>
      Behind(c2, m, p)
  {
    forall p | 0 <= p < |c.nodes| && p != m && p != f
      ensures (Reached(c, m, p) ==> Reached(c2, m, p)) && (Behind(c, m, p) ==> Behind(c2, m, p))
    {
      assert c2.nodes[p] == c.nodes[p];
    }
  }

  /** With everyone up to date, the leader has committed its whole log. */
  lemma AllCommitted(run: seq<Cluster>, m: int)
    requires Live(run) && Led(Now(run), m) && LastLogTerm(Now(run).nodes[m].rf) == Now(run).nodes[m].rf.currentTerm
    requires forall p {:trigger Reached(Now(run), m, p)} :: 0 <= p < |Now(run).nodes| && p != m ==>
      Reached(Now(run), m, p)
    ensures Now(run).nodes[m].rf.commitIndex == LastLogIndex(Now(run).nodes[m].rf)
  {
    hide ServedRun;
    var c, rf := Now(run), Now(run).nodes[m].rf;
    var l := LogOf(run, |run| - 1, m);
    CommitsWhatMajorityHas(run, |run| - 1, m);
    forall p | 0 <= p < |c.nodes| && p != m
      ensures rf.matchIndex[p] == LastLogIndex(rf)
    {
      assert Reached(c, m, p);
    }
    assert Replicas(rf, LastLogIndex(rf)) == Range(|c.nodes|);
    assert HoldsEntry(rf, LastLogIndex(rf), rf.currentTerm);
  }

  /** The replica has committed the leader's whole log. */
  ghost predicate Settled(c: Cluster, m: int, p: int) {
    0 <= m < |c.nodes| && 0 <= p < |c.nodes| && c.nodes[p].rf.commitIndex == LastLogIndex(c.nodes[m].rf)
  }

  /** A heartbeat tells a follower that has the leader's log what is committed. */
  lemma Heartbeat(run: seq<Cluster>, m: int, f: int) returns (run2: seq<Cluster>)
    requires Live(run) && Led(Now(run), m) && Settled(Now(run), m, m) && Reached(Now(run), m, f) && f != m
    ensures Continues(run, run2) && Led(Now(run2), m) && Tended(Now(run), Now(run2), m, f)
    ensures Settled(Now(run2), m, m) && Settled(Now(run2), m, f)
  {
    hide ServedRun, HandleAppend, MakeAppendArgs, Untrimmed, Quiet;
    var c := Now(run);
    var l := LogOf(run, |run| - 1, m);
    var l2 := LogOf(run, |run| - 1, f);
    TermsNotNegative(c.nodes[m].rf, l, 0);
    BuiltCarries(c.nodes[m].rf, l, f);
    var a := MakeAppendArgs(c.nodes[m].rf, f);
    LastCarried(c.nodes[m].rf, a, f);
    Answers(c.nodes[f].rf, a);
    LeaderAgrees(run, m, f);
    HeartbeatTaken(c.nodes[f].rf, a);
    var run1 := Go(run, m, Send(f));
    run2 := Go(run1, f, OnAppend(a));
    QuietOn(run, run1, run2);
  }

  lemma HeartbeatTaken(theirs: Server, a: AppendArgs)
    requires theirs.log != [] && theirs.role.Follower? && theirs.currentTerm == a.term
    requires HoldsEntry(theirs, a.prevLogIndex, a.prevLogTerm)
    requires a.leaderCommit <= a.prevLogIndex && theirs.commitIndex <= a.leaderCommit
    ensures HandleAppend(theirs, a).0.commitIndex == a.leaderCommit
  {
    hide Merge;
  }

  /** Heartbeats to the followers from j on. */
  lemma {:induction false} HeartbeatAll(run: seq<Cluster>, m: int, j: nat) returns (run2: seq<Cluster>)
    requires Live(run) && Led(Now(run), m) && j <= |Now(run).nodes| && Settled(Now(run), m, m)
    requires forall p {:trigger Settled(Now(run), m, p)} :: 0 <= p < j ==> Settled(Now(run), m, p)
    requires forall p {:trigger Reached(Now(run), m, p)} :: j <= p < |Now(run).nodes| && p != m ==>
      Reached(Now(run), m, p)
    ensures Continues(run, run2) && Led(Now(run2), m) && SameLog(Now(run), Now(run2), m)
    ensures forall p {:trigger Settled(Now(run2), m, p)} :: 0 <= p < |Now(run).nodes| ==> Settled(Now(run2), m, p)
    decreases |Now(run).nodes| - j
  {
    hide ServedRun, Led, Reached, Settled, Tended;
    run2 := run;
    LedInRange(Now(run), m);
    if j < |Now(run).nodes| {
      if j != m {
        run2 := Heartbeat(run, m, j);
        TendedKeeps(Now(run), Now(run2), m, j);
        TendedSettled(Now(run), Now(run2), m, j);
      }
      run2 := HeartbeatAll(run2, m, j + 1);
    }
  }

  lemma TendedSettled(c: Cluster, c2: Cluster, m: int, f: int)
    requires Tended(c, c2, m, f)
    ensures forall p {:trigger Settled(c2, m, p)} :: 0 <= p < |c.nodes| && p != m && p != f && Settled(c, m, p) ==>
      Settled(c2, m, p)
  {
    forall p | 0 <= p < |c.nodes| && p != m && p != f && Settled(c, m, p)
      ensures Settled(c2, m, p)
    {
      assert c2.nodes[p] == c.nodes[p];
    }
  }

  // ----- Delivery -----

  /** The service works through the batch. */
  lemma {:induction false} Drain(run: seq<Cluster>, s: int) returns (run2: seq<Cluster>)
    requires Live(run) && 0 <= s < |Now(run).nodes|
    requires var node := Now(run).nodes[s];
      node.hand.Empty? && node.pending == {} && node.batch.Sending? && node.kvLast < node.batch.upTo
    ensures Continues(run, run2) && Moved(Now(run), Now(run2), s, Now(run2).nodes[s]) && Calm(Now(run2).nodes[s])
    ensures var node := Now(run).nodes[s];
      Now(run2).nodes[s].rf == node.rf.(lastApplied := Max(node.rf.lastApplied, node.batch.upTo))
    decreases |Now(run).nodes[s].batch.entries|
  {
    hide ServedRun, Fold;
    if Now(run).nodes[s].batch.entries == [] {
      run2 := Go(run, s, FinishBatch);
    } else {
      run2 := Go(run, s, ReceiveCommand);
      run2 := Go(run2, s, Handle(false));
      run2 := Drain(run2, s);
    }
  }

  lemma KvLastBelow(run: seq<Cluster>, s: int)
    requires Live(run) && 0 <= s < |Now(run).nodes|
    ensures Now(run).nodes[s].kvLast <= Now(run).nodes[s].rf.lastApplied <= Now(run).nodes[s].rf.commitIndex
  {
    hide Explains, LeaderOk, CandidacyOk, VoteOk, MessageOk, CommittedPrefix, AcksOk, LogOk, SnapshotsOk, Standing,
      Replay, ServedRun, InStep, Overtaken;
    var h, gs, _ := At(run, |run| - 1);
    assert NodeOk(h, |Now(run).nodes|, s, Now(run).nodes[s], gs[s]);
  }

  /** The service works through the batch until it has the last command in hand. */
  lemma {:induction false} DrainToLast(run: seq<Cluster>, s: int) returns (run2: seq<Cluster>)
    requires Live(run) && 0 <= s < |Now(run).nodes|
    requires var node := Now(run).nodes[s];
      && node.hand.Empty? && node.batch.Sending? && node.batch.entries != [] && node.kvLast < node.batch.upTo
    ensures Continues(run, run2) && Due(Now(run2).nodes[s])
    ensures var entries := Now(run).nodes[s].batch.entries;
      Now(run2).nodes[s].hand.msg.command == entries[|entries| - 1].command
    decreases |Now(run).nodes[s].batch.entries|
  {
    hide ServedRun, Fold, Quiet;
    HeadIsDue(run, s);
    run2 := Go(run, s, ReceiveCommand);
    if |Now(run).nodes[s].batch.entries| > 1 {
      var run1 := Go(run2, s, Handle(false));
      QuietOn(run, run2, run1);
      run2 := DrainToLast(run1, s);
      QuietOn(run, run1, run2);
    }
  }

  lemma HeadIsDue(run: seq<Cluster>, s: int)
    requires Live(run) && 0 <= s < |Now(run).nodes|
    requires var node := Now(run).nodes[s];
      node.hand.Empty? && node.batch.Sending? && node.batch.entries != [] && node.kvLast < node.batch.upTo
    ensures Now(run).nodes[s].kvLast < Now(run).nodes[s].batch.entries[0].index
  {
    hide Explains, Inv, ServedRun;
    var h, gs, _ := At(run, |run| - 1);
    NextIsDue(Now(run), h, gs, s);
  }

  /** What was committed last comes into the service's hand. */
  lemma HandOver(run: seq<Cluster>, s: int) returns (run2: seq<Cluster>)
    requires Live(run) && 0 <= s < |Now(run).nodes| && Calm(Now(run).nodes[s])
    requires Now(run).nodes[s].rf.lastApplied < Now(run).nodes[s].rf.commitIndex == LastLogIndex(Now(run).nodes[s].rf)
    ensures Continues(run, run2) && Due(Now(run2).nodes[s]) && Now(run).nodes[s].rf.log != []
    ensures var log := Now(run).nodes[s].rf.log; Now(run2).nodes[s].hand.msg.command == log[|log| - 1].command
  {
    hide ServedRun, Quiet;
    KvLastBelow(run, s);
    var run1 := Go(run, s, GrabBatch);
    run2 := DrainToLast(run1, s);
    QuietOn(run, run1, run2);
  }

  /** The service applies all that is committed. */
  lemma Deliver(run: seq<Cluster>, s: int) returns (run2: seq<Cluster>)
    requires Live(run) && 0 <= s < |Now(run).nodes| && Calm(Now(run).nodes[s])
    ensures Continues(run, run2) && Moved(Now(run), Now(run2), s, Now(run2).nodes[s]) && Calm(Now(run2).nodes[s])
    ensures var rf := Now(run).nodes[s].rf; Now(run2).nodes[s].rf == rf.(lastApplied := rf.commitIndex)
  {
    hide ServedRun;
    run2 := run;
    KvLastBelow(run, s);
    if Now(run).nodes[s].rf.lastApplied < Now(run).nodes[s].rf.commitIndex {
      run2 := Go(run, s, GrabBatch);
      run2 := Drain(run2, s);
    }
  }

  /** The replica has applied everything it has committed. */
  predicate Done(node: Node) {
    Calm(node) && node.rf.lastApplied == node.rf.commitIndex
  }

  /** The services from j on apply all that is committed. */
  lemma {:induction false} DeliverAll(run: seq<Cluster>, j: nat) returns (run2: seq<Cluster>)
    requires Live(run) && j <= |Now(run).nodes|
    requires forall p {:trigger Now(run).nodes[p]} :: 0 <= p < |Now(run).nodes| ==>
      Calm(Now(run).nodes[p]) && (p < j ==> Done(Now(run).nodes[p]))
    ensures Continues(run, run2)
    ensures forall p {:trigger Now(run2).nodes[p]} :: 0 <= p < |Now(run).nodes| ==>
      && Done(Now(run2).nodes[p])
      && Now(run2).nodes[p].rf == Now(run).nodes[p].rf.(lastApplied := Now(run2).nodes[p].rf.lastApplied)
    decreases |Now(run).nodes| - j
  {
    hide ServedRun;
    run2 := run;
    if j < |Now(run).nodes| {
      run2 := Deliver(run, j);
      run2 := DeliverAll(run2, j + 1);
    }
  }

  // ----- All together -----

  /**
   At the end of the run m leads, and every replica has committed and applied the same entries of one log, which
   explains every moment before, and the last of which are the given commands.
   */
  ghost predicate Delivered(run: seq<Cluster>, cmds: seq<Cmd>, m: int, top: nat, chosen: Log) {
    && run != [] && 0 <= m < |Now(run).nodes| && Now(run).nodes[m].rf.role.Leader?
    && |cmds| <= top <= |chosen|
    && (forall x {:trigger cmds[x]} :: 0 <= x < |cmds| ==> chosen[top - |cmds| + x].command == cmds[x])
    && (forall i, s {:trigger run[i].nodes[s]} :: 0 <= i < |run| && 0 <= s < |run[i].nodes| ==>
          AgreesWith(run[0].start, run[i].nodes[s], chosen))
    && (forall s {:trigger Now(run).nodes[s]} :: 0 <= s < |Now(run).nodes| ==>
          Now(run).nodes[s].rf.commitIndex == AppliedTo(Now(run).nodes[s]) == top)
  }

  /** A leader that has just been elected knows nothing of the others. */
  lemma AllBehind(run: seq<Cluster>, run2: seq<Cluster>, m: int, cmds: seq<Cmd>)
    requires Live(run) && Led(Now(run), m) && NewLeader(Now(run).nodes[m].rf) && Live(run2) && Led(Now(run2), m)
    requires Moved(Now(run), Now(run2), m, Now(run2).nodes[m])
    requires GrownBy(Now(run).nodes[m].rf, Now(run2).nodes[m].rf, cmds)
    ensures forall p {:trigger Behind(Now(run2), m, p)} :: 0 <= p < |Now(run2).nodes| && p != m ==>
      Behind(Now(run2), m, p)
    ensures cmds != [] ==> LastLogTerm(Now(run2).nodes[m].rf) == Now(run2).nodes[m].rf.currentTerm
  {
    hide ServedRun;
    var c, rf := Now(run2), Now(run2).nodes[m].rf;
    LeaderAgrees(run2, m, m);
    forall p | 0 <= p < |c.nodes| && p != m
      ensures Behind(c, m, p)
    {
      LeaderAgrees(run2, m, p);
      assert Now(run).nodes[m].rf.matchIndex[p] == rf.matchIndex[p] == -1;
    }
    if cmds != [] { assert cmds[|cmds| - 1] == cmds[|cmds| - 1]; }
  }

  /** Everyone comes to have the leader's log, which is committed. */
  lemma Spread(run: seq<Cluster>, m: int) returns (run2: seq<Cluster>)
    requires Live(run) && Led(Now(run), m) && LastLogTerm(Now(run).nodes[m].rf) == Now(run).nodes[m].rf.currentTerm
    requires forall p {:trigger Behind(Now(run), m, p)} :: 0 <= p < |Now(run).nodes| && p != m ==>
      Behind(Now(run), m, p)
    ensures Continues(run, run2) && Led(Now(run2), m) && SameLog(Now(run), Now(run2), m)
    ensures Now(run2).nodes[m].rf.commitIndex == LastLogIndex(Now(run2).nodes[m].rf)
    ensures forall p {:trigger Reached(Now(run2), m, p)} :: 0 <= p < |Now(run).nodes| && p != m ==>
      Reached(Now(run2), m, p)
  {
    hide ServedRun, Quiet, Reached, Behind;
    run2 := CatchUpAll(run, m, 0);
    AllCommitted(run2, m);
  }

  /** From a fresh leader on: the commands reach everyone. */
  lemma Serve(run: seq<Cluster>, m: int, cmds: seq<Cmd>) returns (run2: seq<Cluster>)
    requires Live(run) && Led(Now(run), m) && NewLeader(Now(run).nodes[m].rf) && cmds != []
    ensures Live(run2) && run <= run2 && |Now(run2).nodes| == |Now(run).nodes|
    ensures 0 <= m < |Now(run).nodes| && Now(run2).nodes[m].rf.role.Leader?
    ensures forall p {:trigger Now(run2).nodes[p]} :: 0 <= p < |Now(run).nodes| ==>
      Done(Now(run2).nodes[p]) && Now(run2).nodes[p].rf.commitIndex == LastLogIndex(Now(run2).nodes[m].rf)
    ensures var rf, rf2 := Now(run).nodes[m].rf, Now(run2).nodes[m].rf;
      rf2.lastIncludedIndex == rf.lastIncludedIndex && GrownBy(rf, rf.(log := rf2.log), cmds)
  {
    hide ServedRun, Quiet, Reached, Behind;
    run2 := ProposeAll(run, m, cmds);
    ghost var rf := Now(run2).nodes[m].rf;
    AllBehind(run, run2, m, cmds);
    run2 := Spread(run2, m);
    run2 := HeartbeatAll(run2, m, 0);
    ghost var c := Now(run2);
    run2 := DeliverAll(run2, 0);
    assert Now(run2).nodes[m].rf.log == rf.log && Now(run2).nodes[m].rf.lastIncludedIndex == rf.lastIncludedIndex;
    forall p | 0 <= p < |c.nodes|
      ensures Now(run2).nodes[p].rf.commitIndex == LastLogIndex(Now(run2).nodes[m].rf)
    {
      assert Settled(c, m, p);
    }
  }

  /** What the leader has just committed is the chosen log's, with the new commands at its end. */
  lemma EndsWith(run: seq<Cluster>, rf: Server, m: int, cmds: seq<Cmd>, chosen: Log)
    requires Live(run) && 0 <= m < |Now(run).nodes| && rf.log != []
    requires var rf2 := Now(run).nodes[m].rf;
      && AgreesWith(run[0].start, Now(run).nodes[m], chosen) && rf2.commitIndex == LastLogIndex(rf2)
      && rf2.lastIncludedIndex == rf.lastIncludedIndex && GrownBy(rf, rf.(log := rf2.log), cmds)
    ensures var top := Now(run).nodes[m].rf.commitIndex;
      && |cmds| <= top <= |chosen|
      && forall x {:trigger cmds[x]} :: 0 <= x < |cmds| ==> chosen[top - |cmds| + x].command == cmds[x]
  {
    hide Replay, ServedRun;
    var rf2 := Now(run).nodes[m].rf;
    var top := rf2.commitIndex;
    forall x | 0 <= x < |cmds|
      ensures chosen[top - |cmds| + x].command == cmds[x]
    {
      assert rf2.log[|rf.log| + x] == chosen[top - |cmds| + x];
    }
  }

  lemma AppliedAll(run: seq<Cluster>, s: int)
    requires Live(run) && 0 <= s < |Now(run).nodes| && Done(Now(run).nodes[s])
    ensures AppliedTo(Now(run).nodes[s]) == Now(run).nodes[s].rf.commitIndex
  {
    hide ServedRun;
    KvLastBelow(run, s);
  }

  /**
   After any run of two replicas or more, if they all restart, one can be elected and have all of them apply any
   commands, on top of everything chosen before.
   */
  lemma Recovers(run: seq<Cluster>, cmds: seq<Cmd>) returns (run2: seq<Cluster>, m: int, top: nat, chosen: Log)
    requires ServedRun(run) && |run[0].nodes| >= 2 && cmds != []
    ensures ServedRun(run2) && run <= run2 && Delivered(run2, cmds, m, top, chosen)
  {
    hide ServedRun, AgreesWith;
    assert Live(run) by { NotEmpty(run); }
    Sized(run);
    run2 := RestartAll(run, 0);
    run2, m := Elect(run2);
    ghost var rf := Now(run2).nodes[m].rf;
    run2 := Serve(run2, m, cmds);
    chosen := StateMachineSafety(run2);
    EndsWith(run2, rf, m, cmds, chosen);
    top := Now(run2).nodes[m].rf.commitIndex;
    forall s | 0 <= s < |Now(run2).nodes|
      ensures Now(run2).nodes[s].rf.commitIndex == AppliedTo(Now(run2).nodes[s]) == top
    {
      AppliedAll(run2, s);
    }
  }

  lemma NotEmpty(run: seq<Cluster>)
    requires ServedRun(run)
    ensures run != []
  {
  }

  lemma Sized(run: seq<Cluster>)
    requires Live(run)
    ensures |Now(run).nodes| == |run[0].nodes|
  {
    SameSize(run, |run| - 1);
  }

  /** One replica alone recovers nothing: more than one is exactly what it takes. */
  lemma RecoversExactlyWithPeers(run: seq<Cluster>, cmds: seq<Cmd>)
    requires ServedRun(run) && cmds != []
    ensures (exists run2, m, top, chosen {:trigger Delivered(run2, cmds, m, top, chosen)} ::
        ServedRun(run2) && run <= run2 && Delivered(run2, cmds, m, top, chosen))
      <==> |run[0].nodes| >= 2
  {
    if |run[0].nodes| >= 2 {
      hide ServedRun, Delivered;
      var run2, m, top, chosen := Recovers(run, cmds);
    } else {
      hide AgreesWith;
      forall run2: seq<Cluster>, m, top, chosen | ServedRun(run2) && run <= run2
        ensures !Delivered(run2, cmds, m, top, chosen)
      {
        SameSize(run2, |run2| - 1);
        if |run2[0].nodes| == 1 { AloneNeverLeads(run2, |run2| - 1); }
      }
    }
  }
}
