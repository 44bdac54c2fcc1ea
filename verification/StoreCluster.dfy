/**
 The sharded store as it runs: every group a Raft cluster, and clerks and groups exchanging messages that
 may be lost, repeated and reordered. A replica acts on what it has applied itself.
 */
module StoreCluster {
  import opened KvService
  import opened Service
  import opened ShardService
  import Raft = RaftCluster
  import Spec = ShardSystem

  /** Messages between clerks, groups and the controller; g is the new owner of a shard, h the old one. */
  datatype Mail =
    | Reply(client: int, seqNum: int, value: string)
    | Found(g: int, num: nat)
    | Wanted(g: int, h: int, shard: nat)
    | PartAsked(g: int, h: int, num: nat, shard: nat)
    | PartGiven(g: int, num: nat, shard: nat, data: map<string, string>, seqs: map<int, int>)
    | Owed(h: int, g: int, shard: nat)
    | DoneAsked(h: int, g: int, num: nat, shard: nat)
    | DoneSaid(h: int, num: nat, shard: nat, theirs: nat)

  datatype Store = Store(groups: map<int, Raft.Cluster>, clerks: map<int, Spec.Clerk>, mail: set<Mail>)

  /** Replica s of a group takes the step, except that a clerk issues its operations and accepts the replies. */
  datatype Action =
    | Elsewhere
    | Issue(op: Op)
    | Accept(client: int, value: string)
    | Peer(g: int, s: int, a: Raft.Action)
    | Serve(g: int, s: int, op: Op)
    | Nudge(g: int, s: int)
    | Find(g: int, s: int)
    | Adopt(g: int, s: int, num: nat)
    | ListPart(g: int, s: int, shard: nat)
    | AskPart(g: int, s: int, h: int, shard: nat)
    | GivePart(h: int, s: int, g: int, num: nat, shard: nat)
    | TakePart(g: int, s: int, part: Mail)
    | ListDone(h: int, s: int, shard: nat)
    | AskDone(h: int, s: int, g: int, shard: nat)
    | SayDone(g: int, s: int, h: int, num: nat, shard: nat)
    | DropPart(h: int, s: int, num: nat, shard: nat, theirs: nat)

  predicate HasState(n: nat, w: Store, g: int, s: int) {
    && g in w.groups && 0 <= s < |w.groups[g].nodes| && w.groups[g].nodes[s].kv.GroupData?
    && Shaped(n, w.groups[g].nodes[s].kv.group)
  }

  /** What the replica has applied. */
  function StateOf(n: nat, w: Store, g: int, s: int): GroupState
    requires HasState(n, w, g, s)
  {
    w.groups[g].nodes[s].kv.group
  }

  predicate Issued(w: Store, op: Op) {
    op.clientId in w.clerks && 1 <= op.seqNum <= |w.clerks[op.clientId].ops|
      && w.clerks[op.clientId].ops[op.seqNum - 1] == op
  }

  /** The operation the service is about to apply to a shard it serves. */
  predicate Answers(n: nat, node: Raft.Node, a: Raft.Action) {
    && a.Handle? && node.hand.Holding? && node.hand.msg.Command? && node.hand.msg.index > node.kvLast
    && node.kv.GroupData? && Shaped(n, node.kv.group)
    && node.hand.msg.command.GroupCmd? && node.hand.msg.command.cmd.Operation?
    && Serves(n, node.kv.group, node.hand.msg.command.cmd.op)
  }

  /** What the handler waiting for the operation sends back. */
  function Replies(n: nat, node: Raft.Node, a: Raft.Action): set<Mail> {
    if !Answers(n, node, a) then {}
    else
      var op := node.hand.msg.command.cmd.op;
      {Reply(op.clientId, op.seqNum, if op.optype == Get then Value(node.kv.group.kv, op.key) else op.value)}
  }

  /** Replica s of group g takes a step of its peer or its service. */
  ghost predicate Steps(w: Store, w2: Store, g: int, s: int, a: Raft.Action, sent: set<Mail>) {
    && g in w.groups && g in w2.groups && Raft.NextBy(w.groups[g], w2.groups[g], s, a)
    && w2 == w.(groups := w.groups[g := w2.groups[g]], mail := w.mail + sent)
  }

  /** Replica s of group g hands a command to its peer. */
  ghost predicate Hands(w: Store, w2: Store, g: int, s: int, cmd: Command) {
    Steps(w, w2, g, s, Raft.Propose(GroupCmd(cmd)), {})
  }

  ghost predicate Sends(w: Store, w2: Store, m: Mail) {
    w2 == w.(mail := w.mail + {m})
  }

  ghost predicate Next(env: Spec.Env, w: Store, a: Action, w2: Store) {
    match a
    case Elsewhere => w2 == w
    // a clerk starts its next operation once the last one was answered
    case Issue(op) =>
      var clerk := ClerkOf(w, op.clientId);
      && clerk.answered == |clerk.ops| && op.seqNum == |clerk.ops| + 1 && op.optype != Unknown
      && w2 == w.(clerks := w.clerks[op.clientId := clerk.(ops := clerk.ops + [op])])
    // it accepts an answer to the operation it is waiting for
    case Accept(client, value) =>
      && client in w.clerks && w.clerks[client].answered < |w.clerks[client].ops|
      && Reply(client, w.clerks[client].answered + 1, value) in w.mail
      && w2 == w.(clerks := w.clerks[client := w.clerks[client].(answered := w.clerks[client].answered + 1)])
    case Peer(g, s, step) =>
      && g in w.groups && 0 <= s < |w.groups[g].nodes| && !step.Propose?
      && Steps(w, w2, g, s, step, Replies(env.n, w.groups[g].nodes[s], step))
    case Serve(g, s, op) =>
      && Issued(w, op) && HasState(env.n, w, g, s)
      && StateOf(env.n, w, g, s).config.shards[KeyShard(env.n, op.key)] == g
      && Hands(w, w2, g, s, Operation(op))
    case Nudge(g, s) => Hands(w, w2, g, s, NoOperation)
    // a replica that is ready learns of the next configuration, and proposes it some time later
    case Find(g, s) =>
      && HasState(env.n, w, g, s)
      && var mine := StateOf(env.n, w, g, s);
         && mine.config.num + 1 < |env.configs| && (mine.config.num == 0 || Ready(mine))
         && Sends(w, w2, Found(g, mine.config.num + 1))
    case Adopt(g, s, num) =>
      Found(g, num) in w.mail && num < |env.configs| && Hands(w, w2, g, s, Configure(env.configs[num]))
    // pulling a shard: list it with its previous owner, and with whatever configuration number there is by then
    // ask that group, which answers in the same configuration only
    case ListPart(g, s, i) =>
      && HasState(env.n, w, g, s) && i < env.n
      && var mine := StateOf(env.n, w, g, s);
         mine.status[i] == Pulling && Sends(w, w2, Wanted(g, mine.prev.shards[i], i))
    case AskPart(g, s, h, i) =>
      && Wanted(g, h, i) in w.mail && HasState(env.n, w, g, s)
      && Sends(w, w2, PartAsked(g, h, StateOf(env.n, w, g, s).config.num, i))
    case GivePart(h, s, g, num, i) =>
      && PartAsked(g, h, num, i) in w.mail && HasState(env.n, w, h, s) && i < env.n
      && var mine := StateOf(env.n, w, h, s);
         && mine.config.num == num && mine.status[i] == BePulled
         && Sends(w, w2, PartGiven(g, num, i, Part(env.n, mine.kv, i), mine.clientSeq))
    case TakePart(g, s, part) =>
      && part.PartGiven? && part.g == g && part in w.mail && HasState(env.n, w, g, s)
      && StateOf(env.n, w, g, s).config.num == part.num
      && Hands(w, w2, g, s, Merge(part.num, part.shard, part.data, part.seqs))
    // confirming: list the shard with its new owner, ask that group while it is the owner, and then drop the shard
    case ListDone(h, s, i) =>
      && HasState(env.n, w, h, s) && i < env.n
      && var mine := StateOf(env.n, w, h, s);
         mine.status[i] == BePulled && Sends(w, w2, Owed(h, mine.config.shards[i], i))
    case AskDone(h, s, g, i) =>
      && Owed(h, g, i) in w.mail && HasState(env.n, w, h, s) && i < env.n
      && var mine := StateOf(env.n, w, h, s);
         mine.config.shards[i] == g && Sends(w, w2, DoneAsked(h, g, mine.config.num, i))
    case SayDone(g, s, h, num, i) =>
      && DoneAsked(h, g, num, i) in w.mail && HasState(env.n, w, g, s) && i < env.n
      && var mine := StateOf(env.n, w, g, s);
         Arrived(mine, num, i) && Sends(w, w2, DoneSaid(h, num, i, mine.config.num))
    case DropPart(h, s, num, i, theirs) =>
      && DoneSaid(h, num, i, theirs) in w.mail && HasState(env.n, w, h, s)
      && theirs >= StateOf(env.n, w, h, s).config.num
      && Hands(w, w2, h, s, Confirm(num, i))
  }

  function ClerkOf(w: Store, client: int): Spec.Clerk {
    if client in w.clerks then w.clerks[client] else Spec.Clerk([], 0)
  }

  /** Every group a fresh cluster, no group 0, nothing issued, nothing sent. */
  ghost predicate Init(env: Spec.Env, w: Store) {
    && w.clerks == map[] && w.mail == {} && 0 !in w.groups
    && forall g {:trigger w.groups[g]} :: g in w.groups ==>
         Raft.Init(w.groups[g]) && w.groups[g].start == GroupData(env.n, g, Start(env.n))
  }

  ghost predicate Run(env: Spec.Env, ws: seq<Store>, acts: seq<Action>) {
    && |ws| == |acts| + 1 && Init(env, ws[0])
    && forall t, u {:trigger ws[t], ws[u]} :: 0 <= t && u == t + 1 <= |acts| ==> Next(env, ws[t], acts[t], ws[u])
  }
}
