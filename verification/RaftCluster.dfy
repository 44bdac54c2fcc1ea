/**
 A cluster of replicas, each a Raft peer with a service on top, over a network that may lose, duplicate
 and reorder messages. Every region the code runs under a lock is one step.
 */
module RaftCluster {
  import opened Service
  import opened RaftServer

  datatype Message =
    | VoteRequest(vote: VoteArgs)
    | VoteAnswer(from: int, to: int, askedTerm: int, voteReply: VoteReply)
    | AppendRequest(to: int, append: AppendArgs)
    | AppendAnswer(from: int, to: int, append: AppendArgs, appendReply: AppendReply)
    | SnapshotRequest(to: int, install: SnapshotArgs)
    | SnapshotAnswer(from: int, to: int, sentIndex: int, replyTerm: int)

  /** What the peer hands to the service over the apply channel. */
  datatype ApplyMsg = Command(command: Cmd, index: int) | Install(index: int, term: int, data: Data)

  /** The apply goroutine: idle, or holding a copied batch whose last entry has index `upTo`. */
  datatype Batch = Idle | Sending(entries: Log, upTo: int)

  datatype Hand = Empty | Holding(msg: ApplyMsg)

  /**
   A replica. `awaiting` are the peers whose vote-request goroutine of the current election has not
   come back, `pending` the snapshots waiting for the apply channel, `hand` the message the service
   has received and not yet handled, `kvLast` the service's own lastIncludedIndex.
   */
  datatype Node = Node(
    rf: Server,
    awaiting: set<int>,
    pending: set<ApplyMsg>,
    batch: Batch,
    hand: Hand,
    kv: Data,
    kvLast: int)

  /** `start` is the state of the service before any command. */
  datatype Cluster = Cluster(nodes: seq<Node>, net: set<Message>, start: Data)

  datatype Action =
    | Timeout
    | OnVote(vote: VoteArgs)
    | OnVoteAnswer(from: int, askedTerm: int, voteReply: VoteReply)
    | Propose(command: Cmd)
    | Send(peer: int)
    | OnAppend(append: AppendArgs)
    | OnAppendAnswer(from: int, append: AppendArgs, appendReply: AppendReply)
    | OnSnapshot(install: SnapshotArgs)
    | OnSnapshotAnswer(from: int, sentIndex: int, replyTerm: int)
    | GrabBatch
    | ReceiveCommand
    | ReceiveSnapshot(msg: ApplyMsg)
    | FinishBatch
    | Handle(takeSnapshot: bool)
    | Crash

  predicate Shape(n: nat, s: int, node: Node) {
    && node.rf.me == s && node.rf.peers == n
    && node.rf.log != []
    && |node.rf.nextIndex| == n && |node.rf.matchIndex| == n
  }

  /** The step can be taken: its message was sent, its goroutine is at that point. */
  predicate Enabled(c: Cluster, s: int, a: Action)
    requires 0 <= s < |c.nodes|
  {
    var node := c.nodes[s];
    match a
    case Timeout => !node.rf.role.Leader?
    case OnVote(v) => VoteRequest(v) in c.net && v.candidate != s
    case OnVoteAnswer(from, asked, r) =>
      VoteAnswer(from, s, asked, r) in c.net && (asked == node.rf.currentTerm ==> from in node.awaiting)
    case Propose(_) => true
    case Send(peer) => node.rf.role.Leader? && 0 <= peer < |c.nodes| && peer != s
    case OnAppend(args) => AppendRequest(s, args) in c.net
    case OnAppendAnswer(from, args, r) => AppendAnswer(from, s, args, r) in c.net && 0 <= from < |c.nodes|
    case OnSnapshot(args) => SnapshotRequest(s, args) in c.net
    case OnSnapshotAnswer(from, sent, t) => SnapshotAnswer(from, s, sent, t) in c.net && 0 <= from < |c.nodes|
    case GrabBatch => node.batch.Idle? && node.rf.lastApplied < node.rf.commitIndex
    case ReceiveCommand => node.hand.Empty? && node.batch.Sending? && node.batch.entries != []
    case ReceiveSnapshot(m) => node.hand.Empty? && m in node.pending
    case FinishBatch => node.batch.Sending? && node.batch.entries == []
    case Handle(_) => node.hand.Holding?
    case Crash => true
  }

  /** The slice expressions of the step stay inside the log. */
  predicate InBounds(node: Node, a: Action) {
    match a
    case GrabBatch =>
      node.rf.lastIncludedIndex <= node.rf.lastApplied && node.rf.commitIndex <= LastLogIndex(node.rf)
    case Handle(takeSnapshot) =>
      takeSnapshot && node.hand.Holding? && node.hand.msg.Command? ==> node.hand.msg.index <= LastLogIndex(node.rf)
    case _ => true
  }

  function Range(n: nat): (r: set<int>)
    ensures forall p :: p in r <==> 0 <= p < n
    ensures |r| == n
  {
    if n == 0 then {} else Range(n - 1) + {n - 1}
  }

  /** The service handles the message in hand. */
  ghost function HandleMessage(node: Node, takeSnapshot: bool): Node
    requires node.hand.Holding? && node.rf.log != [] && InBounds(node, Handle(takeSnapshot))
  {
    match node.hand.msg
    case Install(index, term, data) =>
      var (rf, installed) := CondInstallSnapshot(node.rf, index, term, data);
      if installed then node.(rf := rf, kv := data, kvLast := index, hand := Empty)
      else node.(hand := Empty)
    case Command(cmd, index) =>
      if index <= node.kvLast && IndexChecked(cmd) then node.(hand := Empty)
      else
        var kv := Fold(node.kv, cmd);
        node.(rf := if takeSnapshot then Snapshot(node.rf, index, kv) else node.rf, kv := kv, hand := Empty)
  }

  /** What the step does to its replica, and what it sends. */
  ghost function Step(n: nat, s: int, node: Node, a: Action): (Node, set<Message>)
    requires Shape(n, s, node) && InBounds(node, a)
    requires a.Send? ==> node.rf.role.Leader? && 0 <= a.peer < n && a.peer != s && 0 <= s < n
    requires a.OnAppendAnswer? || a.OnSnapshotAnswer? ==> 0 <= a.from < n
    requires a.ReceiveCommand? ==> node.batch.Sending? && node.batch.entries != []
    requires a.FinishBatch? ==> node.batch.Sending?
    requires a.Handle? ==> node.hand.Holding?
    requires a.GrabBatch? ==> node.rf.lastApplied < node.rf.commitIndex
  {
    match a
    case Timeout =>
      var rf := CandidateState(node.rf);
      (node.(rf := rf, awaiting := Range(n) - {s}), {VoteRequest(MakeVoteArgs(rf))})
    case OnVote(v) =>
      var (rf, r) := HandleVote(node.rf, v);
      (node.(rf := rf), {VoteAnswer(s, v.candidate, v.term, r)})
    case OnVoteAnswer(from, asked, r) =>
      (node.(rf := HandleVoteReply(node.rf, asked, r),
       awaiting := if asked == node.rf.currentTerm then node.awaiting - {from} else node.awaiting), {})
    case Propose(op) => (node.(rf := Start(node.rf, op)), {})
    case Send(peer) =>
      if node.rf.nextIndex[peer] - 1 < node.rf.lastIncludedIndex then
        (node, {SnapshotRequest(peer, MakeSnapshotArgs(node.rf))})
      else (node.(rf := MarkOwnSlots(node.rf)), {AppendRequest(peer, MakeAppendArgs(node.rf, peer))})
    case OnAppend(args) =>
      var (rf, r) := HandleAppend(node.rf, args);
      (node.(rf := rf), {AppendAnswer(s, args.leader, args, r)})
    case OnAppendAnswer(from, args, r) => (node.(rf := HandleAppendReply(node.rf, from, args, r)), {})
    case OnSnapshot(args) =>
      var (rf, replyTerm, handOn) := HandleSnapshot(node.rf, args);
      var msg := Install(args.lastIncludedIndex, args.lastIncludedTerm, args.data);
      (node.(rf := rf, pending := if handOn then node.pending + {msg} else node.pending),
       {SnapshotAnswer(s, args.leader, args.lastIncludedIndex, replyTerm)})
    case OnSnapshotAnswer(from, sent, t) => (node.(rf := HandleSnapshotReply(node.rf, from, sent, t)), {})
    case GrabBatch =>
      var first := node.rf.lastIncludedIndex;
      (node.(batch := Sending(node.rf.log[node.rf.lastApplied + 1 - first..node.rf.commitIndex + 1 - first],
       node.rf.commitIndex)), {})
    case ReceiveCommand =>
      var e := node.batch.entries[0];
      (node.(hand := Holding(Command(e.command, e.index)),
       batch := Sending(node.batch.entries[1..], node.batch.upTo)), {})
    case ReceiveSnapshot(m) => (node.(hand := Holding(m), pending := node.pending - {m}), {})
    case FinishBatch =>
      (node.(batch := Idle, rf := node.rf.(lastApplied := Max(node.rf.lastApplied, node.batch.upTo))), {})
    case Handle(takeSnapshot) => (HandleMessage(node, takeSnapshot), {})
    case Crash => (Node(Restart(node.rf), {}, {}, Idle, Empty, node.rf.snapshot, 0), {})
  }

  function Starts(c: Cluster, s: int): Node {
    Node(Fresh(s, |c.nodes|, c.start), {}, {}, Idle, Empty, c.start, 0)
  }

  ghost predicate Init(c: Cluster) {
    && c.net == {}
    && forall s :: 0 <= s < |c.nodes| ==> c.nodes[s] == Starts(c, s)
  }

  ghost predicate NextBy(c: Cluster, c': Cluster, s: int, a: Action) {
    && 0 <= s < |c.nodes|
    && Enabled(c, s, a)
    && Shape(|c.nodes|, s, c.nodes[s]) && InBounds(c.nodes[s], a)
    && var (node, sent) := Step(|c.nodes|, s, c.nodes[s], a);
       c' == Cluster(c.nodes[s := node], c.net + sent, c.start)
  }

  ghost predicate Next(c: Cluster, c': Cluster) {
    exists s, a :: NextBy(c, c', s, a)
  }

  /** A command that comes too late and is looked at all the same changes nothing. */
  ghost predicate Tolerates(node: Node) {
    node.hand.Holding? && node.hand.msg.Command? && node.hand.msg.index <= node.kvLast ==>
      IndexChecked(node.hand.msg.command) || Fold(node.kv, node.hand.msg.command) == node.kv
  }

  /** A finite run: any length, any cluster size, any interleaving. */
  ghost predicate Run(run: seq<Cluster>) {
    && run != [] && Init(run[0])
    && forall i :: 0 <= i < |run| - 1 ==> Next(run[i], run[i + 1])
  }

  /** A run of a cluster whose service puts up with late commands. */
  ghost predicate ServedRun(run: seq<Cluster>) {
    Run(run) && forall i, s {:trigger run[i].nodes[s]} :: 0 <= i < |run| && 0 <= s < |run[i].nodes| ==>
      Tolerates(run[i].nodes[s])
  }
}
