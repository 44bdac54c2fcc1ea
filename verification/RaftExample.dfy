/**
 A run in which a leader commits an entry of an earlier term: it still has the snapshot of its predecessor to
 install when it is elected.
 */
module RaftExample {
  import opened KvService
  import opened Service
  import opened RaftServer
  import opened RaftCluster
  import opened RaftSafety
  import opened RaftInstalls

  const START := KvData(EMPTY)
  const PUT := KvCmd(Op(1, 1, "k", "v", Put))
  const AFTER := KvData(KvState(map["k" := "v"], map[1 := 1]))
  const ENTRY := Entry(1, PUT, 1)
  const LOG := [HEAD, ENTRY]
  const APPEND := AppendArgs(1, 0, 0, 0, [ENTRY], 0)
  const ACCEPTED := AppendReply(1, true, false, 0, 0)
  const SNAPSHOT := SnapshotArgs(1, 0, 1, 1, AFTER)

  // ----- The replicas, as they go -----

  function Follows(me: int, log: Log, term: int, vote: int): Server {
    Server(me, 3, Follower, log, term, vote, 0, 0, 0, [1, 1, 1], [0, 0, 0], 0, 0, START)
  }

  function Stands(me: int, log: Log, term: int): Server {
    Server(me, 3, Candidate, log, term, me, 0, 0, 1, [1, 1, 1], [0, 0, 0], 0, 0, START)
  }

  /** Replica 0 as leader of term 1, before it has compacted anything. */
  function Leads(log: Log, commit: int, next: seq<int>, matched: seq<int>): Server {
    Server(0, 3, Leader, log, 1, 0, commit, 0, 2, next, matched, 0, 0, START)
  }

  const COMPACTED := Server(0, 3, Leader, [HEAD], 1, 0, 1, 1, 2, [2, 2, 1], [1, 1, -1], 1, 1, AFTER)
  const NEW_LEADER := Server(2, 3, Leader, LOG, 2, 2, 0, 0, 2, [2, 2, 2], [-1, -1, -1], 0, 0, START)
  const INSTALLED := NEW_LEADER.(log := [HEAD], commitIndex := 1, lastApplied := 1, lastIncludedIndex := 1,
                                 lastIncludedTerm := 1, snapshot := AFTER)

  function Quiet(rf: Server): Node {
    Node(rf, {}, {}, Idle, Empty, START, 0)
  }

  const S0_STARTS := Quiet(Follows(0, [HEAD], 0, -1))
  const S1_STARTS := Quiet(Follows(1, [HEAD], 0, -1))
  const S2_STARTS := Quiet(Follows(2, [HEAD], 0, -1))
  const S0_STANDS := Quiet(Stands(0, [HEAD], 1)).(awaiting := {1, 2})
  const S0_LEADS := Quiet(Leads([HEAD], 0, [1, 1, 1], [-1, -1, -1])).(awaiting := {2})
  const S0_APPENDS := Quiet(Leads(LOG, 0, [1, 1, 1], [-1, -1, -1])).(awaiting := {2})
  const S0_SENDS := Quiet(Leads(LOG, 0, [2, 1, 1], [1, -1, -1])).(awaiting := {2})
  const S0_COMMITS := Quiet(Leads(LOG, 1, [2, 2, 1], [1, 1, -1])).(awaiting := {2})
  const S0_DELIVERS := S0_COMMITS.(batch := Sending([ENTRY], 1))
  const S0_HOLDS := S0_COMMITS.(batch := Sending([], 1), hand := Holding(Command(PUT, 1)))
  const S0_COMPACTS := Quiet(COMPACTED).(awaiting := {2}, batch := Sending([], 1), kv := AFTER)
  const S1_VOTES := Quiet(Follows(1, [HEAD], 1, 0))
  const S1_HAS_IT := Quiet(Follows(1, LOG, 1, 0))
  const S1_VOTES_AGAIN := Quiet(Follows(1, LOG, 2, 2))
  const S2_HAS_IT := Quiet(Follows(2, LOG, 1, -1))
  const S2_QUEUES := S2_HAS_IT.(pending := {Install(1, 1, AFTER)})
  const S2_STANDS := Quiet(Stands(2, LOG, 2)).(awaiting := {0, 1}, pending := {Install(1, 1, AFTER)})
  const S2_LEADS := Quiet(NEW_LEADER).(awaiting := {0}, pending := {Install(1, 1, AFTER)})
  const S2_HOLDS := Quiet(NEW_LEADER).(awaiting := {0}, hand := Holding(Install(1, 1, AFTER)))
  const S2_INSTALLS := Quiet(INSTALLED).(awaiting := {0}, kv := AFTER, kvLast := 1)

  // ----- Building the run -----

  ghost function Now(run: seq<Cluster>): Cluster
    requires run != []
  {
    run[|run| - 1]
  }

  ghost predicate Reached(run: seq<Cluster>, a: Node, b: Node, c: Node) {
    run != [] && Run(run) && run[0].start == START && Now(run).nodes == [a, b, c]
  }

  /** The step can start without the guards the network and the goroutines set. */
  ghost predicate Fits(s: int, node: Node, a: Action) {
    && 0 <= s < 3 && Shape(3, s, node) && InBounds(node, a)
    && (a.Send? ==> node.rf.role.Leader? && 0 <= a.peer < 3 && a.peer != s)
    && (a.OnAppendAnswer? || a.OnSnapshotAnswer? ==> 0 <= a.from < 3)
    && (a.ReceiveCommand? ==> node.batch.Sending? && node.batch.entries != [])
    && (a.FinishBatch? ==> node.batch.Sending?) && (a.Handle? ==> node.hand.Holding?)
    && (a.GrabBatch? ==> node.rf.lastApplied < node.rf.commitIndex)
  }

  /** The step takes the replica from one state to the other and sends the messages. */
  ghost predicate Takes(s: int, node: Node, a: Action, node2: Node, sent: set<Message>) {
    Fits(s, node, a) && Step(3, s, node, a) == (node2, sent)
  }

  lemma Same(x: Node, y: Node)
    requires x.rf.log == y.rf.log && x.rf.nextIndex == y.rf.nextIndex && x.rf.matchIndex == y.rf.matchIndex
    requires x.awaiting == y.awaiting && x.pending == y.pending && x.batch == y.batch && x.hand == y.hand
    requires x.rf.(log := [], nextIndex := [], matchIndex := []) == y.rf.(log := [], nextIndex := [], matchIndex := [])
    requires x.kv == y.kv && x.kvLast == y.kvLast
    ensures x == y
  {
  }

  /** One more step, of replica s. */
  lemma Grow(run: seq<Cluster>, s: int, a: Action, node: Node, sent: set<Message>) returns (run2: seq<Cluster>)
    requires run != [] && Run(run) && |Now(run).nodes| == 3 && 0 <= s < 3 && Enabled(Now(run), s, a)
    requires Takes(s, Now(run).nodes[s], a, node, sent)
    ensures run2 != [] && Run(run2) && run <= run2 && |run2| == |run| + 1 && run2[|run| - 1] == Now(run)
    ensures Now(run2) == Cluster(Now(run).nodes[s := node], Now(run).net + sent, Now(run).start)
    ensures NextBy(Now(run), Now(run2), s, a)
  {
    var c2 := Cluster(Now(run).nodes[s := node], Now(run).net + sent, Now(run).start);
    run2 := run + [c2];
    assert NextBy(Now(run), c2, s, a);
    hide NextBy, Init;
    forall i | 0 <= i < |run2| - 1
      ensures Next(run2[i], run2[i + 1])
    {
      if i < |run| - 1 { assert Next(run[i], run[i + 1]); }
    }
  }

  lemma Stand0()
    ensures Takes(0, S0_STARTS, Timeout, S0_STANDS, {VoteRequest(VoteArgs(1, 0, 0, 0))})
  {
    assert Range(3) - {0} == {1, 2};
    Same(Step(3, 0, S0_STARTS, Timeout).0, S0_STANDS);
  }

  lemma Vote0()
    ensures Takes(1, S1_STARTS, OnVote(VoteArgs(1, 0, 0, 0)), S1_VOTES, {VoteAnswer(1, 0, 1, VoteReply(1, true))})
  {
    Same(Step(3, 1, S1_STARTS, OnVote(VoteArgs(1, 0, 0, 0))).0, S1_VOTES);
  }

  lemma Win0()
    ensures Takes(0, S0_STANDS, OnVoteAnswer(1, 1, VoteReply(1, true)), S0_LEADS, {})
  {
    assert {1, 2} - {1} == {2};
    Same(Step(3, 0, S0_STANDS, OnVoteAnswer(1, 1, VoteReply(1, true))).0, S0_LEADS);
  }

  lemma Propose0()
    ensures Takes(0, S0_LEADS, Propose(PUT), S0_APPENDS, {})
  {
    Same(Step(3, 0, S0_LEADS, Propose(PUT)).0, S0_APPENDS);
  }

  lemma Send1()
    ensures Takes(0, S0_APPENDS, Send(1), S0_SENDS, {AppendRequest(1, APPEND)})
  {
    Same(Step(3, 0, S0_APPENDS, Send(1)).0, S0_SENDS);
  }

  lemma Send2()
    ensures Takes(0, S0_SENDS, Send(2), S0_SENDS, {AppendRequest(2, APPEND)})
  {
    Same(Step(3, 0, S0_SENDS, Send(2)).0, S0_SENDS);
  }

  lemma Append1()
    ensures Takes(1, S1_VOTES, OnAppend(APPEND), S1_HAS_IT, {AppendAnswer(1, 0, APPEND, ACCEPTED)})
  {
    Same(Step(3, 1, S1_VOTES, OnAppend(APPEND)).0, S1_HAS_IT);
  }

  lemma Append2()
    ensures Takes(2, S2_STARTS, OnAppend(APPEND), S2_HAS_IT, {AppendAnswer(2, 0, APPEND, ACCEPTED)})
  {
    Same(Step(3, 2, S2_STARTS, OnAppend(APPEND)).0, S2_HAS_IT);
  }

  lemma Commit0()
    ensures Takes(0, S0_SENDS, OnAppendAnswer(1, APPEND, ACCEPTED), S0_COMMITS, {})
  {
    var rf := Leads(LOG, 0, [2, 2, 1], [1, 1, -1]);
    assert Replicas(rf, 1) == {0, 1};
    assert FirstOfCurrentTerm(rf, 0) == 1;
    Same(Step(3, 0, S0_SENDS, OnAppendAnswer(1, APPEND, ACCEPTED)).0, S0_COMMITS);
  }

  lemma Grab0()
    ensures Takes(0, S0_COMMITS, GrabBatch, S0_DELIVERS, {})
  {
    Same(Step(3, 0, S0_COMMITS, GrabBatch).0, S0_DELIVERS);
  }

  lemma Receive0()
    ensures Takes(0, S0_DELIVERS, ReceiveCommand, S0_HOLDS, {})
  {
    Same(Step(3, 0, S0_DELIVERS, ReceiveCommand).0, S0_HOLDS);
  }

  lemma Compact0()
    ensures Takes(0, S0_HOLDS, Handle(true), S0_COMPACTS, {})
  {
    assert Fold(START, PUT) == AFTER;
    Same(Step(3, 0, S0_HOLDS, Handle(true)).0, S0_COMPACTS);
  }

  lemma SendSnapshot()
    ensures Takes(0, S0_COMPACTS, Send(2), S0_COMPACTS, {SnapshotRequest(2, SNAPSHOT)})
  {
    Same(Step(3, 0, S0_COMPACTS, Send(2)).0, S0_COMPACTS);
  }

  lemma Queue2()
    ensures Takes(2, S2_HAS_IT, OnSnapshot(SNAPSHOT), S2_QUEUES, {SnapshotAnswer(2, 0, 1, 1)})
  {
    Same(Step(3, 2, S2_HAS_IT, OnSnapshot(SNAPSHOT)).0, S2_QUEUES);
  }

  lemma Stand2()
    ensures Takes(2, S2_QUEUES, Timeout, S2_STANDS, {VoteRequest(VoteArgs(2, 2, 1, 1))})
  {
    assert Range(3) - {2} == {0, 1};
    Same(Step(3, 2, S2_QUEUES, Timeout).0, S2_STANDS);
  }

  lemma Vote2()
    ensures Takes(1, S1_HAS_IT, OnVote(VoteArgs(2, 2, 1, 1)), S1_VOTES_AGAIN, {VoteAnswer(1, 2, 2, VoteReply(2, true))})
  {
    Same(Step(3, 1, S1_HAS_IT, OnVote(VoteArgs(2, 2, 1, 1))).0, S1_VOTES_AGAIN);
  }

  lemma Win2()
    ensures Takes(2, S2_STANDS, OnVoteAnswer(1, 2, VoteReply(2, true)), S2_LEADS, {})
  {
    assert {0, 1} - {1} == {0};
    Same(Step(3, 2, S2_STANDS, OnVoteAnswer(1, 2, VoteReply(2, true))).0, S2_LEADS);
  }

  lemma Receive2()
    ensures Takes(2, S2_LEADS, ReceiveSnapshot(Install(1, 1, AFTER)), S2_HOLDS, {})
  {
    Same(Step(3, 2, S2_LEADS, ReceiveSnapshot(Install(1, 1, AFTER))).0, S2_HOLDS);
  }

  lemma Install2()
    ensures Takes(2, S2_HOLDS, Handle(false), S2_INSTALLS, {})
  {
    Same(Step(3, 2, S2_HOLDS, Handle(false)).0, S2_INSTALLS);
  }

  lemma Begin() returns (run: seq<Cluster>)
    ensures Reached(run, S0_STARTS, S1_STARTS, S2_STARTS)
  {
    var c := Cluster([S0_STARTS, S1_STARTS, S2_STARTS], {}, START);
    forall s | 0 <= s < 3
      ensures c.nodes[s] == Starts(c, s)
    {
      assert Fresh(s, 3, START).nextIndex == [1, 1, 1] && Fresh(s, 3, START).matchIndex == [0, 0, 0];
    }
    run := [c];
  }

  /** Replica 0 is elected in term 1 with the vote of replica 1. */
  lemma Elect() returns (run2: seq<Cluster>)
    ensures Reached(run2, S0_LEADS, S1_VOTES, S2_STARTS)
  {
    run2 := Begin();
    hide Takes, Run, NextBy;
    Stand0();
    run2 := Grow(run2, 0, Timeout, S0_STANDS, {VoteRequest(VoteArgs(1, 0, 0, 0))});
    Vote0();
    run2 := Grow(run2, 1, OnVote(VoteArgs(1, 0, 0, 0)), S1_VOTES, {VoteAnswer(1, 0, 1, VoteReply(1, true))});
    Win0();
    run2 := Grow(run2, 0, OnVoteAnswer(1, 1, VoteReply(1, true)), S0_LEADS, {});
  }

  /** It gets its entry to both others and commits it on the answer of replica 1. */
  lemma Replicate(run: seq<Cluster>) returns (run2: seq<Cluster>)
    requires Reached(run, S0_LEADS, S1_VOTES, S2_STARTS)
    ensures Reached(run2, S0_COMMITS, S1_HAS_IT, S2_HAS_IT)
  {
    run2 := run;
    hide Takes, Run, NextBy;
    Propose0();
    run2 := Grow(run2, 0, Propose(PUT), S0_APPENDS, {});
    Send1();
    run2 := Grow(run2, 0, Send(1), S0_SENDS, {AppendRequest(1, APPEND)});
    Send2();
    run2 := Grow(run2, 0, Send(2), S0_SENDS, {AppendRequest(2, APPEND)});
    Append1();
    run2 := Grow(run2, 1, OnAppend(APPEND), S1_HAS_IT, {AppendAnswer(1, 0, APPEND, ACCEPTED)});
    Append2();
    run2 := Grow(run2, 2, OnAppend(APPEND), S2_HAS_IT, {AppendAnswer(2, 0, APPEND, ACCEPTED)});
    Commit0();
    run2 := Grow(run2, 0, OnAppendAnswer(1, APPEND, ACCEPTED), S0_COMMITS, {});
  }

  /** Its service applies the entry and compacts the log; the snapshot goes to replica 2, which queues it. */
  lemma Compact(run: seq<Cluster>) returns (run2: seq<Cluster>)
    requires Reached(run, S0_COMMITS, S1_HAS_IT, S2_HAS_IT)
    ensures Reached(run2, S0_COMPACTS, S1_HAS_IT, S2_QUEUES)
  {
    run2 := run;
    hide Takes, Run, NextBy;
    Grab0();
    run2 := Grow(run2, 0, GrabBatch, S0_DELIVERS, {});
    Receive0();
    run2 := Grow(run2, 0, ReceiveCommand, S0_HOLDS, {});
    Compact0();
    run2 := Grow(run2, 0, Handle(true), S0_COMPACTS, {});
    SendSnapshot();
    run2 := Grow(run2, 0, Send(2), S0_COMPACTS, {SnapshotRequest(2, SNAPSHOT)});
    Queue2();
    run2 := Grow(run2, 2, OnSnapshot(SNAPSHOT), S2_QUEUES, {SnapshotAnswer(2, 0, 1, 1)});
  }

  /** Replica 2 is elected in term 2, and only then its service receives the snapshot. */
  lemma TakeOver(run: seq<Cluster>) returns (run2: seq<Cluster>)
    requires Reached(run, S0_COMPACTS, S1_HAS_IT, S2_QUEUES)
    ensures Reached(run2, S0_COMPACTS, S1_VOTES_AGAIN, S2_HOLDS)
  {
    run2 := run;
    hide Takes, Run, NextBy;
    Stand2();
    run2 := Grow(run2, 2, Timeout, S2_STANDS, {VoteRequest(VoteArgs(2, 2, 1, 1))});
    Vote2();
    run2 := Grow(run2, 1, OnVote(VoteArgs(2, 2, 1, 1)), S1_VOTES_AGAIN, {VoteAnswer(1, 2, 2, VoteReply(2, true))});
    Win2();
    run2 := Grow(run2, 2, OnVoteAnswer(1, 2, VoteReply(2, true)), S2_LEADS, {});
    Receive2();
    run2 := Grow(run2, 2, ReceiveSnapshot(Install(1, 1, AFTER)), S2_HOLDS, {});
  }

  /** Not every index a leader newly commits has its own term: this leader of term 2 commits an entry of term 1. */
  lemma EarlierTermCommitted() returns (run: seq<Cluster>, k: nat)
    ensures ServedRun(run) && k + 1 < |run| && |run[k].nodes| == |run[k + 1].nodes| == 3
    ensures NextBy(run[k], run[k + 1], 2, Handle(false)) && Installs(run[k].nodes[2], Handle(false))
    ensures var rf, rf2 := run[k].nodes[2].rf, run[k + 1].nodes[2].rf;
      && rf.role.Leader? && rf2.role.Leader? && rf.commitIndex < rf2.commitIndex
      && rf2.log != [] && rf2.commitIndex == rf2.lastIncludedIndex
      && TermAt(rf2, rf2.commitIndex - rf2.lastIncludedIndex) == 1 < rf2.currentTerm == 2
  {
    hide Takes, Run, NextBy;
    run := Elect();
    run := Replicate(run);
    run := Compact(run);
    run := TakeOver(run);
    k := |run| - 1;
    Install2();
    run := Grow(run, 2, Handle(false), S2_INSTALLS, {});
    IndexedRunIsServed(run);
  }
}
