/** What every reachable world of the sharded store keeps, told with a history of the one store it stands for. */
module ShardInvariant {
  import opened KvService
  import opened ShardService
  import opened ShardSystem

  /** The single store, the operations that took effect, and per shard the last configuration its owner got it in. */
  datatype History = History(store: map<string, string>, executed: set<Op>, token: seq<nat>)

  ghost function FirstHistory(env: Env): History {
    History(map[], {}, seq(env.n, i => 0))
  }

  ghost predicate HistoryShaped(env: Env, h: History) {
    env.n > 0 && |h.token| == env.n
  }

  ghost function NextHistory(env: Env, w: World, h: History, a: Action): (h2: History)
    requires HistoryShaped(env, h) && CanApply(env, w, a)
    ensures HistoryShaped(env, h2)
  {
    if !a.Commit? then h
    else
      var s := Last(w.groups[a.g]);
      match a.cmd
      case Operation(op) =>
        if Executes(env.n, s, op) then h.(store := Effect(h.store, op), executed := h.executed + {op}) else h
      case Configure(config) =>
        if !TakesConfig(s, config) then h
        else h.(token := seq(env.n, i requires 0 <= i < env.n =>
                  if NewStatus(a.g, s.status[i], s.config, config, i) == Serving then config.num else h.token[i]))
      case Merge(num, i, _, _) =>
        if TakesPart(env.n, s, num, i) then h.(token := h.token[i := num]) else h
      case _ => h
  }

  // ----- Sequence numbers and shards against the history -----

  /** Every operation that took effect on the shard is known here. */
  ghost predicate Covers(n: nat, h: History, seqs: map<int, int>, i: nat)
    requires n > 0
  {
    forall op {:trigger op in h.executed} :: op in h.executed && KeyShard(n, op.key) == i ==>
      Seq(seqs, op.clientId) >= op.seqNum
  }

  ghost predicate Took(h: History, client: int, num: int) {
    exists op {:trigger op in h.executed} :: op in h.executed && op.clientId == client && op.seqNum == num
  }

  /** Every sequence number recorded here took effect somewhere. */
  ghost predicate Sound(h: History, seqs: map<int, int>) {
    forall c {:trigger seqs[c]} :: c in seqs && seqs[c] > 0 ==> Took(h, c, seqs[c])
  }

  ghost predicate Mirrors(n: nat, h: History, s: GroupState, i: nat)
    requires n > 0
  {
    Part(n, s.kv, i) == Part(n, h.store, i) && Covers(n, h, s.clientSeq, i)
  }

  // ----- One state of one group -----

  ghost predicate Base(env: Env, h: History, s: GroupState)
    requires EnvOk(env)
  {
    && Shaped(env.n, s) && s.config.num < |env.configs| && s.config == env.configs[s.config.num]
    && (if s.config.num == 0 then s == Start(env.n) else s.prev == env.configs[s.config.num - 1])
    && Sound(h, s.clientSeq)
  }

  ghost predicate StatusOk(env: Env, g: int, s: GroupState, i: nat)
    requires EnvOk(env) && Shaped(env.n, s) && s.config.num < |env.configs| && i < env.n
  {
    var c, st := s.config.num, s.status[i];
    && ((st == NoServing || st == Pulling) ==> Part(env.n, s.kv, i) == map[])
    && (c == 0 ==> st == NoServing)
    && (c >= 1 ==> ((st == Serving || st == Pulling) <==> Owner(env, c, i) == g))
    && (st == Pulling ==> c >= 2 && Owner(env, c - 1, i) != g)
    && (st == BePulled ==> c >= 2 && Owner(env, c - 1, i) == g)
  }

  ghost predicate TokenSeen(env: Env, h: History, g: int, s: GroupState, i: nat)
    requires EnvOk(env) && HistoryShaped(env, h) && Shaped(env.n, s) && s.config.num < |env.configs| && i < env.n
  {
    var c, st, t := s.config.num, s.status[i], h.token[i];
    && (st == Serving ==> t >= c)
    && (st == BePulled ==> t >= c - 1 && (t == c - 1 ==> Mirrors(env.n, h, s, i)))
    && (st == NoServing && c >= 2 && Owner(env, c - 1, i) == g ==> t >= c)
    && (forall d: nat {:trigger Owner(env, d, i)} :: 1 <= d < c && Owner(env, d, i) == g ==> t >= d)
  }

  ghost predicate StateOk(env: Env, h: History, g: int, s: GroupState, i: nat)
    requires EnvOk(env) && HistoryShaped(env, h) && i < env.n
  {
    Base(env, h, s) && StatusOk(env, g, s, i) && TokenSeen(env, h, g, s, i)
  }

  /** Of a group's latest state: what it serves is the one store, and what it pulls is not yet anyone's. */
  ghost predicate LatestOk(env: Env, h: History, s: GroupState, i: nat)
    requires HistoryShaped(env, h) && Shaped(env.n, s) && i < env.n
  {
    && (s.status[i] == Serving ==> h.token[i] == s.config.num && Mirrors(env.n, h, s, i))
    && (s.status[i] == Pulling ==> h.token[i] < s.config.num)
  }

  /** One entry of a committed log. */
  ghost predicate EntryOk(env: Env, h: History, g: int, s: GroupState, cmd: Command, s2: GroupState)
    requires EnvOk(env)
  {
    && Shaped(env.n, s) && InShape(env.n, cmd) && s2 == ApplyCommand(env.n, g, s, cmd)
    && (cmd.Operation? && Serves(env.n, s, cmd.op) ==> cmd.op in h.executed)
    && (cmd.Configure? && TakesConfig(s, cmd.config) ==>
          cmd.config.num == s.config.num + 1 && (s.config.num == 0 || Ready(s)))
    && (cmd.Merge? || cmd.Confirm? ==> s.config.num >= cmd.num)
  }

  ghost predicate GroupOk(env: Env, h: History, g: int, group: Group)
    requires EnvOk(env) && HistoryShaped(env, h)
  {
    && |group.states| == |group.log| + 1 && group.states[0] == Start(env.n)
    && (forall k {:trigger group.states[k]} :: 0 <= k < |group.states| ==> Base(env, h, group.states[k]))
    && (forall k, i {:trigger StateOk(env, h, g, group.states[k], i)} :: 0 <= k < |group.states| && 0 <= i < env.n ==>
          StateOk(env, h, g, group.states[k], i))
    && (forall i {:trigger LatestOk(env, h, Last(group), i)} :: 0 <= i < env.n ==> LatestOk(env, h, Last(group), i))
    && (forall k {:trigger group.log[k]} :: 0 <= k < |group.log| ==>
          EntryOk(env, h, g, group.states[k], group.log[k], group.states[k + 1]))
  }

  // ----- The world -----

  /** The owner in configuration c has had the shard served in that configuration. */
  ghost predicate Held(env: Env, w: World, c: nat, i: nat)
    requires EnvOk(env) && c < |env.configs| && i < env.n
  {
    var g := Owner(env, c, i);
    g in w.groups && exists k {:trigger w.groups[g].states[k]} ::
      0 <= k < |w.groups[g].states| && HeldAt(w.groups[g].states[k], c, i)
  }

  ghost predicate HeldAt(s: GroupState, c: nat, i: nat) {
    s.config.num == c && i < |s.status| && s.status[i] == Serving
  }

  ghost predicate TokenOk(env: Env, w: World, h: History, i: nat)
    requires EnvOk(env) && HistoryShaped(env, h) && i < env.n
  {
    && h.token[i] < |env.configs|
    && (forall c: nat {:trigger Held(env, w, c, i)} :: 1 <= c <= h.token[i] ==> Held(env, w, c, i))
    && (h.token[i] == 0 ==>
      Part(env.n, h.store, i) == map[] && forall op {:trigger op in h.executed} :: op in h.executed ==>
        KeyShard(env.n, op.key) != i)
  }

  /** The latest configuration of a group is at least c. */
  ghost predicate Reached(w: World, g: int, c: nat) {
    g in w.groups && w.groups[g].states != [] && Last(w.groups[g]).config.num >= c
  }

  ghost predicate CommandOk(env: Env, w: World, h: History, g: int, cmd: Command)
    requires EnvOk(env) && HistoryShaped(env, h)
  {
    match cmd
    case Operation(op) => Issued(w, op)
    case Configure(config) =>
      && 1 <= config.num < |env.configs| && config == env.configs[config.num]
      && Reached(w, g, config.num - 1)
      && (Last(w.groups[g]).config.num == config.num - 1 ==> config.num == 1 || Ready(Last(w.groups[g])))
    case Merge(c, i, data, seqs) =>
      && i < env.n && 2 <= c < |env.configs| && Part(env.n, data, i) == data && Sound(h, seqs)
      && h.token[i] >= c - 1 && Reached(w, Owner(env, c - 1, i), c) && Reached(w, g, c)
      && (h.token[i] == c - 1 ==> data == Part(env.n, h.store, i) && Covers(env.n, h, seqs, i))
    case Confirm(c, i) => i < env.n && h.token[i] >= c && Reached(w, g, c)
    case NoOperation => true
  }

  ghost predicate ClerkOk(h: History, client: int, clerk: Clerk) {
    && clerk.answered <= |clerk.ops| <= clerk.answered + 1
    && (forall k {:trigger clerk.ops[k]} :: 0 <= k < |clerk.ops| ==>
      clerk.ops[k].clientId == client && clerk.ops[k].seqNum == k + 1)
    && (forall k {:trigger clerk.ops[k]} :: 0 <= k < clerk.answered ==> clerk.ops[k] in h.executed)
  }

  ghost predicate Inv(env: Env, w: World, h: History)
    requires EnvOk(env)
  {
    && HistoryShaped(env, h) && 0 !in w.groups
    && (forall g {:trigger w.groups[g]} :: g in w.groups ==> GroupOk(env, h, g, w.groups[g]))
    && (forall i {:trigger TokenOk(env, w, h, i)} :: 0 <= i < env.n ==> TokenOk(env, w, h, i))
    && (forall g, cmd {:trigger cmd in w.groups[g].pending} :: g in w.groups && cmd in w.groups[g].pending ==>
      CommandOk(env, w, h, g, cmd))
    && (forall c {:trigger w.clerks[c]} :: c in w.clerks ==> ClerkOk(h, c, w.clerks[c]))
    && (forall op {:trigger op in h.executed} :: op in h.executed ==> Issued(w, op))
  }

  // ----- Configurations only go up -----

  lemma {:induction false} ConfigsGrow(env: Env, h: History, g: int, group: Group, j: nat, k: nat)
    requires EnvOk(env) && HistoryShaped(env, h) && GroupOk(env, h, g, group) && j <= k < |group.states|
    ensures group.states[j].config.num <= group.states[k].config.num
    decreases k - j
  {
    if j < k {
      ConfigsGrow(env, h, g, group, j, k - 1);
      assert EntryOk(env, h, g, group.states[k - 1], group.log[k - 1], group.states[k]);
    }
  }

  /** Once ready, a group stays as it is until its next configuration. */
  lemma {:induction false} StaysReady(env: Env, h: History, g: int, group: Group, j: nat, k: nat)
    requires EnvOk(env) && HistoryShaped(env, h) && GroupOk(env, h, g, group) && j <= k < |group.states|
    requires Ready(group.states[j]) && group.states[k].config.num == group.states[j].config.num
    ensures Ready(group.states[k])
    decreases k - j
  {
    if j < k {
      ConfigsGrow(env, h, g, group, j, k - 1);
      ConfigsGrow(env, h, g, group, k - 1, k);
      StaysReady(env, h, g, group, j, k - 1);
      assert EntryOk(env, h, g, group.states[k - 1], group.log[k - 1], group.states[k]);
      ReadyStep(env.n, g, group.states[k - 1], group.log[k - 1]);
    }
  }

  lemma ReadyStep(n: nat, g: int, s: GroupState, cmd: Command)
    requires Shaped(n, s) && InShape(n, cmd) && Ready(s)
    ensures !(cmd.Configure? && TakesConfig(s, cmd.config)) ==> ApplyCommand(n, g, s, cmd).status == s.status
  {
  }

  lemma HeldReached(env: Env, w: World, h: History, c: nat, i: nat)
    requires EnvOk(env) && Inv(env, w, h) && c < |env.configs| && i < env.n && Held(env, w, c, i)
    ensures Reached(w, Owner(env, c, i), c)
  {
    var g := Owner(env, c, i);
    var k :| 0 <= k < |w.groups[g].states| && HeldAt(w.groups[g].states[k], c, i);
    ConfigsGrow(env, h, g, w.groups[g], k, |w.groups[g].states| - 1);
  }
}
