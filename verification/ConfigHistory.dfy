/** The controller's configurations as a function of the operations applied. */
module ConfigHistory {
  import opened Rebalance
  import opened FewestMoves

  datatype Config = Config(num: int, shards: seq<int>, groups: map<int, seq<string>>)

  datatype Args =
    | Join(servers: map<int, seq<string>>)
    | Leave(gids: seq<int>)
    | Move(shard: int, gid: int)
    | Query(num: int)

  datatype Op = Op(args: Args, seqNum: int, clientId: int)

  /** Configuration 0: no groups, every shard with group 0. */
  function Initial(n: nat): seq<Config> {
    [Config(0, Zeros(n), map[])]
  }

  /** What an operation asks of its sender: a shard that exists, and never group 0. */
  predicate Sensible(n: nat, op: Op) {
    match op.args
    case Join(servers) => 0 !in servers
    case Move(shard, _) => 0 <= shard < n
    case _ => true
  }

  ghost function Regrouped(last: Config, groups: map<int, seq<string>>): Config {
    Config(last.num + 1, Rebalanced(last.shards, groups.Keys), groups)
  }

  /**
   An operation adds one configuration, or none. Sequence numbers are never recorded, so only those up to 0 are
   refused.
   */
  ghost function Apply(configs: seq<Config>, op: Op): seq<Config>
    requires configs != [] && Sensible(|configs[|configs| - 1].shards|, op)
  {
    var last := configs[|configs| - 1];
    if op.seqNum <= 0 then configs
    else
      match op.args
      case Join(servers) => configs + [Regrouped(last, last.groups + servers)]
      case Leave(gids) => configs + [Regrouped(last, last.groups - set g | g in gids)]
      case Move(shard, gid) => configs + [Config(last.num + 1, last.shards[shard := gid], last.groups)]
      case Query(_) => configs
  }

  ghost predicate AllSensible(n: nat, ops: seq<Op>) {
    forall i {:trigger ops[i]} :: 0 <= i < |ops| ==> Sensible(n, ops[i])
  }

  /** The configurations after a sequence of operations. */
  ghost function History(n: nat, ops: seq<Op>): (r: seq<Config>)
    requires AllSensible(n, ops)
    ensures r != [] && |r[|r| - 1].shards| == n
  {
    if ops == [] then Initial(n)
    else
      var k := |ops| - 1;
      Apply(History(n, ops[..k]), ops[k])
  }

  /** Later operations leave earlier configurations as they were. */
  lemma {:induction false} HistoryGrows(n: nat, ops: seq<Op>, more: seq<Op>)
    requires AllSensible(n, ops + more)
    ensures AllSensible(n, ops) && History(n, ops) <= History(n, ops + more)
    decreases |more|
  {
    assert forall i :: 0 <= i < |ops| ==> ops[i] == (ops + more)[i];
    if more == [] {
      assert ops + more == ops;
    } else {
      var k := |more| - 1;
      var all := ops + more;
      assert all[..|all| - 1] == ops + more[..k] && all[|all| - 1] == more[k];
      HistoryGrows(n, ops, more[..k]);
    }
  }

  /** How a configuration follows from the one before. */
  ghost predicate Follows(a: Config, b: Config, op: Op) {
    && op.seqNum > 0 && b.num == a.num + 1 && |b.shards| == |a.shards|
    && match op.args
       case Join(servers) => b.groups == a.groups + servers && Settles(a, b)
       case Leave(gids) => b.groups == a.groups - (set g | g in gids) && Settles(a, b)
       case Move(shard, gid) =>
         && b.groups == a.groups && 0 <= shard < |a.shards| && b.shards[shard] == gid
         && forall i {:trigger b.shards[i]} :: 0 <= i < |a.shards| && i != shard ==> b.shards[i] == a.shards[i]
       case Query(_) => false
  }

  /** Every shard is with a live group, sizes are within one, and no such assignment moves fewer shards. */
  ghost predicate Settles(a: Config, b: Config)
    requires |b.shards| == |a.shards|
  {
    if b.groups.Keys == {} then b.shards == Zeros(|a.shards|)
    else
      && Assigned(b.shards, b.groups.Keys) && Balanced(b.shards, b.groups.Keys)
      && forall s: seq<int> {:trigger Assigned(s, b.groups.Keys)} ::
           |s| == |a.shards| && Assigned(s, b.groups.Keys) && Balanced(s, b.groups.Keys) ==>
             |Changed(a.shards, b.shards)| <= |Changed(a.shards, s)|
  }

  lemma RegroupedSettles(last: Config, groups: map<int, seq<string>>)
    requires 0 !in groups
    ensures Settles(last, Regrouped(last, groups))
  {
    var live := groups.Keys;
    if live != {} {
      RebalanceBalances(last.shards, live);
      hide Rebalanced;
      forall s: seq<int> | |s| == |last.shards| && Assigned(s, live) && Balanced(s, live)
        ensures |Changed(last.shards, Rebalanced(last.shards, live))| <= |Changed(last.shards, s)|
      {
        FewestMoved(last.shards, live, s);
      }
    }
  }

  /** The operations that change the configuration, in order. */
  function Changing(ops: seq<Op>): seq<Op> {
    if ops == [] then []
    else
      var op := ops[|ops| - 1];
      Changing(ops[..|ops| - 1]) + if op.seqNum > 0 && !op.args.Query? then [op] else []
  }

  ghost predicate HistoryOk(n: nat, ops: seq<Op>, r: seq<Config>) {
    && |r| == |Changing(ops)| + 1 && r[0] == Config(0, Zeros(n), map[])
    && (forall i {:trigger r[i]} :: 0 <= i < |r| ==> r[i].num == i && |r[i].shards| == n && 0 !in r[i].groups)
    && (forall i, j {:trigger r[i], r[j]} :: 0 <= i && j == i + 1 < |r| ==> Follows(r[i], r[j], Changing(ops)[i]))
  }

  /**
   Configuration i has number i, and each follows from the one before by the next operation of the sequence
   that changes anything; every such operation is used exactly once.
   */
  lemma {:induction false} HistoryIsOk(n: nat, ops: seq<Op>)
    requires AllSensible(n, ops)
    ensures HistoryOk(n, ops, History(n, ops))
  {
    if ops != [] {
      var k := |ops| - 1;
      var before, op := History(n, ops[..k]), ops[k];
      HistoryIsOk(n, ops[..k]);
      var last, r := before[|before| - 1], History(n, ops);
      if op.seqNum > 0 && (op.args.Join? || op.args.Leave?) {
        var groups := if op.args.Join? then last.groups + op.args.servers else last.groups - set g | g in op.args.gids;
        RegroupedSettles(last, groups);
      }
      hide Settles, Rebalanced;
      assert |r| > |before| ==> Follows(last, r[|before|], op);
      StillFollows(n, ops, before, r);
    }
  }

  lemma StillFollows(n: nat, ops: seq<Op>, before: seq<Config>, r: seq<Config>)
    requires ops != [] && HistoryOk(n, ops[..|ops| - 1], before) && before <= r && |r| == |Changing(ops)| + 1
    requires |r| > |before| ==> Follows(before[|before| - 1], r[|before|], ops[|ops| - 1]) && 0 !in r[|before|].groups
    ensures HistoryOk(n, ops, r)
  {
    var was, now := Changing(ops[..|ops| - 1]), Changing(ops);
    assert was <= now && (|now| > |was| ==> now[|was|] == ops[|ops| - 1]);
    if |r| > |before| {
      assert r[|before|].num == before[|before| - 1].num + 1 && |r[|before|].shards| == |before[|before| - 1].shards|;
    }
    hide Follows, Changing;
    forall i | 0 <= i < |r|
      ensures r[i].num == i && |r[i].shards| == n && 0 !in r[i].groups
    {
      if i < |before| { assert r[i] == before[i]; }
    }
    assert r[0] == before[0];
    forall i, j | 0 <= i && j == i + 1 < |r|
      ensures Follows(r[i], r[j], now[i])
    {
      if j < |before| { assert r[i] == before[i] && r[j] == before[j] && now[i] == was[i]; }
    }
  }
}
