/**
 All groups together. A group is the sequence of states its committed log goes through; its replicas
 may be at any of them, so whatever a replica reads is read from some state of the sequence.
 */
module ShardSystem {
  import opened KvService
  import opened ShardService

  /** The number of shards and the controller's configurations. */
  datatype Env = Env(n: nat, configs: seq<Config>)

  /** A committed log, the states it goes through, and the commands handed to Raft. */
  datatype Group = Group(log: seq<Command>, states: seq<GroupState>, pending: set<Command>)

  /** A client: the operations it has issued, one after the other, and how many were answered. */
  datatype Clerk = Clerk(ops: seq<Op>, answered: nat)

  datatype World = World(groups: map<int, Group>, clerks: map<int, Clerk>)

  datatype Action =
    | Issue(op: Op)
    | Request(g: int, at: nat, op: Op)
    | Answer(client: int, g: int, k: nat)
    | Fetch(g: int, at: nat)
    | Pull(g: int, at: nat, now: nat, h: int, theirs: nat, shard: nat)
    | Check(h: int, listed: nat, at: nat, now: nat, g: int, theirs: nat, shard: nat)
    | Nudge(g: int)
    | Commit(g: int, cmd: Command)

  ghost predicate EnvOk(env: Env) {
    && env.n > 0 && env.configs != [] && env.configs[0] == NoConfig(env.n)
    && forall c {:trigger env.configs[c]} :: 0 <= c < |env.configs| ==>
      env.configs[c].num == c && |env.configs[c].shards| == env.n
  }

  /** Who owns a shard in a configuration. */
  function Owner(env: Env, c: nat, i: nat): int
    requires c < |env.configs| && i < |env.configs[c].shards|
  {
    env.configs[c].shards[i]
  }

  function Last(group: Group): GroupState
    requires group.states != []
  {
    group.states[|group.states| - 1]
  }

  predicate ReadsAt(env: Env, w: World, g: int, at: nat) {
    g in w.groups && at < |w.groups[g].states| && Shaped(env.n, w.groups[g].states[at])
  }

  function At(env: Env, w: World, g: int, at: nat): GroupState
    requires ReadsAt(env, w, g, at)
  {
    w.groups[g].states[at]
  }

  ghost predicate Issued(w: World, op: Op) {
    op.clientId in w.clerks && 1 <= op.seqNum <= |w.clerks[op.clientId].ops|
      && w.clerks[op.clientId].ops[op.seqNum - 1] == op
  }

  /** The old owner's answer to a pull: the shard and all sequence numbers. */
  function PartOf(env: Env, s: GroupState, num: nat, i: nat): Command
    requires env.n > 0
  {
    Merge(num, i, Part(env.n, s.kv, i), s.clientSeq)
  }

  /**
   A confirmation as the loop makes it: shard and new owner g are read in one state, the configuration number in
   another, and g answers that it has the shard.
   */
  ghost predicate Checks(env: Env, w: World, h: int, listed: nat, at: nat, now: nat, g: int, theirs: nat, i: nat) {
    && i < env.n && ReadsAt(env, w, h, listed) && ReadsAt(env, w, h, at) && ReadsAt(env, w, h, now)
    && ReadsAt(env, w, g, theirs)
    && At(env, w, h, listed).status[i] == BePulled && At(env, w, h, listed).config.shards[i] == g
    && Arrived(At(env, w, g, theirs), At(env, w, h, at).config.num, i)
    && At(env, w, g, theirs).config.num >= At(env, w, h, now).config.num
  }

  ghost predicate Enabled(env: Env, w: World, a: Action)
    requires EnvOk(env)
  {
    match a
    // a clerk starts its next operation once the last one was answered
    case Issue(op) =>
      var clerk := ClerkOf(w, op.clientId);
      clerk.answered == |clerk.ops| && op.seqNum == |clerk.ops| + 1 && op.optype != Unknown
    // a replica that takes itself for the owner hands the operation to Raft
    case Request(g, at, op) =>
      Issued(w, op) && ReadsAt(env, w, g, at) && At(env, w, g, at).config.shards[KeyShard(env.n, op.key)] == g
    // the operation was applied in a served shard, and the answer arrived
    case Answer(client, g, k) =>
      && client in w.clerks && w.clerks[client].answered < |w.clerks[client].ops|
      && ReadsAt(env, w, g, k) && k < |w.groups[g].log|
      && w.groups[g].log[k] == Operation(w.clerks[client].ops[w.clerks[client].answered])
      && Serves(env.n, At(env, w, g, k), w.groups[g].log[k].op)
    // a replica that is ready proposes the next configuration
    case Fetch(g, at) =>
      && ReadsAt(env, w, g, at) && At(env, w, g, at).config.num + 1 < |env.configs|
      && (At(env, w, g, at).config.num == 0 || Ready(At(env, w, g, at)))
    // a replica asks a group for a shard, which answers in the configuration asked about only; which group it
    // asks, it has read before
    case Pull(g, at, now, h, theirs, i) =>
      && i < env.n && ReadsAt(env, w, g, at) && ReadsAt(env, w, g, now) && ReadsAt(env, w, h, theirs)
      && var mine, other := At(env, w, g, at), At(env, w, h, theirs);
         && other.config.num == mine.config.num && other.status[i] == BePulled
         && At(env, w, g, now).config.num == mine.config.num
    // a replica whose shard is being pulled asks the new owner, in the configuration asked about, whether it has it
    case Check(h, listed, at, now, g, theirs, i) =>
      Checks(env, w, h, listed, at, now, g, theirs, i) && At(env, w, h, at).config.shards[i] == g
    case Nudge(g) => g in w.groups
    // Raft commits something it was handed
    case Commit(g, cmd) => g in w.groups && w.groups[g].states != [] && cmd in w.groups[g].pending
  }

  function ClerkOf(w: World, client: int): Clerk {
    if client in w.clerks then w.clerks[client] else Clerk([], 0)
  }

  function Propose(w: World, g: int, cmd: Command): World
    requires g in w.groups
  {
    w.(groups := w.groups[g := w.groups[g].(pending := w.groups[g].pending + {cmd})])
  }

  ghost predicate CanApply(env: Env, w: World, a: Action) {
    a.Commit? ==>
      a.g in w.groups && w.groups[a.g].states != [] && Shaped(env.n, Last(w.groups[a.g])) && InShape(env.n, a.cmd)
  }

  ghost function Step(env: Env, w: World, a: Action): World
    requires EnvOk(env) && Enabled(env, w, a) && CanApply(env, w, a)
  {
    match a
    case Issue(op) =>
      var clerk := ClerkOf(w, op.clientId);
      w.(clerks := w.clerks[op.clientId := clerk.(ops := clerk.ops + [op])])
    case Request(g, _, op) => Propose(w, g, Operation(op))
    case Answer(client, _, _) =>
      w.(clerks := w.clerks[client := w.clerks[client].(answered := w.clerks[client].answered + 1)])
    case Fetch(g, at) => Propose(w, g, Configure(env.configs[At(env, w, g, at).config.num + 1]))
    case Pull(g, at, _, h, theirs, i) =>
      Propose(w, g, PartOf(env, At(env, w, h, theirs), At(env, w, g, at).config.num, i))
    case Check(h, _, at, _, _, _, i) => Propose(w, h, Confirm(At(env, w, h, at).config.num, i))
    case Nudge(g) => Propose(w, g, NoOperation)
    case Commit(g, cmd) =>
      var group := w.groups[g];
      w.(groups := w.groups[g := group.(log := group.log + [cmd],
        states := group.states + [ApplyCommand(env.n, g, Last(group), cmd)])])
  }

  /** Every group at its start, no group 0, nothing issued. */
  ghost predicate Init(env: Env, w: World) {
    && w.clerks == map[] && 0 !in w.groups
    && forall g {:trigger w.groups[g]} :: g in w.groups ==> w.groups[g] == Group([], [Start(env.n)], {})
  }

  /** A run: each world follows from the one before by its action. */
  ghost predicate Run(env: Env, ws: seq<World>, acts: seq<Action>)
    requires EnvOk(env)
  {
    && |ws| == |acts| + 1 && Init(env, ws[0])
    && forall t, u {:trigger ws[t], ws[u]} :: 0 <= t && u == t + 1 <= |acts| ==> Next(env, ws[t], acts[t], ws[u])
  }

  ghost predicate Next(env: Env, w: World, a: Action, w2: World)
    requires EnvOk(env)
  {
    Enabled(env, w, a) && CanApply(env, w, a) && w2 == Step(env, w, a)
  }
}
