/** The kvraft service as it runs: one Raft cluster, and clerks whose requests and replies may be lost or repeated. */
module KvCluster {
  import opened KvService
  import opened Service
  import Raft = RaftCluster
  import Spec = ShardSystem

  datatype Reply = Reply(client: int, seqNum: int, value: string)

  datatype Store = Store(cluster: Raft.Cluster, clerks: map<int, Spec.Clerk>, replies: set<Reply>)

  datatype Action =
    | Issue(op: Op)
    | Accept(client: int, value: string)
    | Serve(s: int, op: Op)
    | Peer(s: int, a: Raft.Action)

  function ClerkOf(w: Store, client: int): Spec.Clerk {
    if client in w.clerks then w.clerks[client] else Spec.Clerk([], 0)
  }

  predicate Issued(w: Store, op: Op) {
    op.clientId in w.clerks && 1 <= op.seqNum <= |w.clerks[op.clientId].ops|
      && w.clerks[op.clientId].ops[op.seqNum - 1] == op
  }

  /** The operation the service is about to apply. */
  predicate Answers(node: Raft.Node, a: Raft.Action) {
    && a.Handle? && node.hand.Holding? && node.hand.msg.Command? && node.hand.msg.index > node.kvLast
    && node.kv.KvData? && node.hand.msg.command.KvCmd?
  }

  /** What the handler waiting for the operation sends back. */
  function Replies(node: Raft.Node, a: Raft.Action): set<Reply> {
    if !Answers(node, a) then {}
    else
      var op := node.hand.msg.command.op;
      {Reply(op.clientId, op.seqNum, if op.optype == Get then Value(node.kv.kv.store, op.key) else op.value)}
  }

  ghost predicate Next(w: Store, a: Action, w2: Store) {
    match a
    // a clerk starts its next operation once the last one was answered
    case Issue(op) =>
      var clerk := ClerkOf(w, op.clientId);
      && clerk.answered == |clerk.ops| && op.seqNum == |clerk.ops| + 1 && op.optype != Unknown
      && w2 == w.(clerks := w.clerks[op.clientId := clerk.(ops := clerk.ops + [op])])
    // it accepts an answer to the operation it is waiting for
    case Accept(client, value) =>
      && client in w.clerks && w.clerks[client].answered < |w.clerks[client].ops|
      && Reply(client, w.clerks[client].answered + 1, value) in w.replies
      && w2 == w.(clerks := w.clerks[client := w.clerks[client].(answered := w.clerks[client].answered + 1)])
    // a replica hands a clerk's operation to its peer, any number of times
    case Serve(s, op) =>
      && Issued(w, op) && Raft.NextBy(w.cluster, w2.cluster, s, Raft.Propose(KvCmd(op)))
      && w2 == w.(cluster := w2.cluster)
    case Peer(s, step) =>
      && 0 <= s < |w.cluster.nodes| && !step.Propose? && Raft.NextBy(w.cluster, w2.cluster, s, step)
      && w2 == w.(cluster := w2.cluster, replies := w.replies + Replies(w.cluster.nodes[s], step))
  }

  ghost predicate Init(w: Store) {
    w.clerks == map[] && w.replies == {} && Raft.Init(w.cluster) && w.cluster.start == KvData(EMPTY)
  }

  ghost predicate Run(ws: seq<Store>, acts: seq<Action>) {
    && |ws| == |acts| + 1 && Init(ws[0])
    && forall t, u {:trigger ws[t], ws[u]} :: 0 <= t && u == t + 1 <= |acts| ==> Next(ws[t], acts[t], ws[u])
  }
}
