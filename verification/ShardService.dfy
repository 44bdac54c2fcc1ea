/** The state machine that every replica of one shardkv group folds over its log. */
module ShardService {
  import opened KvService

  datatype Status = Serving | NoServing | Pulling | BePulled

  datatype Config = Config(num: nat, shards: seq<int>)

  datatype GroupState = GroupState(
    kv: map<string, string>,
    clientSeq: map<int, int>,
    status: seq<Status>,
    config: Config,
    prev: Config)

  datatype Command =
    | Operation(op: Op)
    | Configure(config: Config)
    | Merge(num: nat, shard: nat, data: map<string, string>, seqs: map<int, int>)
    | Confirm(num: nat, shard: nat)
    | NoOperation

  /** The first byte of a character's UTF-8 encoding. */
  function FirstByte(c: char): (b: nat)
    ensures b < 256
  {
    var code := c as int;
    if code < 0x80 then code
    else if code < 0x800 then 0xC0 + code / 0x40
    else if code < 0x1_0000 then 0xE0 + code / 0x1000
    else 0xF0 + code / 0x4_0000
  }

  /** The shard of a key: its first byte modulo the number of shards, 0 for the empty key. */
  function KeyShard(n: nat, key: string): (i: nat)
    requires n > 0
    ensures i < n
  {
    if key == "" then 0 else FirstByte(key[0]) % n
  }

  function NoConfig(n: nat): Config {
    Config(0, seq(n, i => 0))
  }

  function Start(n: nat): GroupState {
    GroupState(map[], map[], seq(n, i => NoServing), NoConfig(n), NoConfig(n))
  }

  /** The part of a store in one shard. */
  function Part(n: nat, store: map<string, string>, i: nat): map<string, string>
    requires n > 0
  {
    map key | key in store && KeyShard(n, key) == i :: store[key]
  }

  function WithoutPart(n: nat, store: map<string, string>, i: nat): map<string, string>
    requires n > 0
  {
    map key | key in store && KeyShard(n, key) != i :: store[key]
  }

  /** Each client's higher sequence number. */
  function MaxMerge(mine: map<int, int>, theirs: map<int, int>): map<int, int> {
    map c | c in mine.Keys + theirs.Keys && (c in mine || theirs[c] > 0) ::
      if c in theirs && Seq(mine, c) < theirs[c] then theirs[c] else mine[c]
  }

  function NewStatus(gid: int, was: Status, prev: Config, config: Config, i: nat): Status
    requires i < |config.shards| && i < |prev.shards|
  {
    var mine, before := config.shards[i] == gid, prev.shards[i] == gid;
    if prev.num == 0 then (if mine then Serving else was)
    else if mine then (if before then Serving else Pulling)
    else (if before then BePulled else NoServing)
  }

  predicate Shaped(n: nat, s: GroupState) {
    n > 0 && |s.status| == n && |s.config.shards| == n && |s.prev.shards| == n
  }

  predicate InShape(n: nat, cmd: Command) {
    match cmd
    case Configure(config) => |config.shards| == n
    case Merge(_, i, _, _) => i < n
    case Confirm(_, i) => i < n
    case _ => true
  }

  /** The operation's shard is being served here. */
  predicate Serves(n: nat, s: GroupState, op: Op)
    requires Shaped(n, s)
  {
    s.status[KeyShard(n, op.key)] == Serving
  }

  /** The operation will take effect: its shard is served and its client has not got so far. */
  predicate Executes(n: nat, s: GroupState, op: Op)
    requires Shaped(n, s)
  {
    Serves(n, s, op) && Seq(s.clientSeq, op.clientId) < op.seqNum
  }

  predicate TakesConfig(s: GroupState, config: Config) {
    s.config.num == 0 || config.num == s.config.num + 1
  }

  predicate TakesPart(n: nat, s: GroupState, num: nat, i: nat)
    requires Shaped(n, s) && i < n
  {
    num == s.config.num && s.status[i] == Pulling
  }

  predicate DropsPart(n: nat, s: GroupState, num: nat, i: nat)
    requires Shaped(n, s) && i < n
  {
    num == s.config.num && s.status[i] == BePulled
  }

  /** The new owner's answer to a confirmation: the shard is served in that configuration, or it is past. */
  predicate Arrived(s: GroupState, num: nat, i: nat)
    requires i < |s.status|
  {
    s.config.num > num || (s.config.num == num && s.status[i] == Serving)
  }

  /** What one committed command does. */
  /** The command is passed over: nobody is answered, nothing changes and no snapshot is taken. */
  predicate Refuses(n: nat, s: GroupState, cmd: Command)
    requires Shaped(n, s)
  {
    match cmd
    case Operation(op) => !Serves(n, s, op)
    case Configure(_) => false
    case Merge(num, _, _, _) => num != s.config.num
    case Confirm(num, _) => num != s.config.num
    case NoOperation => true
  }

  function ApplyCommand(n: nat, gid: int, s: GroupState, cmd: Command): (r: GroupState)
    requires Shaped(n, s) && InShape(n, cmd)
    ensures Shaped(n, r)
  {
    match cmd
    case Operation(op) =>
      if !Serves(n, s, op) then s
      else
        var r := KvService.Apply(KvState(s.kv, s.clientSeq), op);
        s.(kv := r.store, clientSeq := r.clientSeq)
    case Configure(config) =>
      if !TakesConfig(s, config) then s
      else
        s.(prev := s.config, config := config,
           status := seq(n, i requires 0 <= i < n => NewStatus(gid, s.status[i], s.config, config, i)))
    case Merge(num, i, data, seqs) =>
      if !TakesPart(n, s, num, i) then s
      else s.(kv := s.kv + data, status := s.status[i := Serving], clientSeq := MaxMerge(s.clientSeq, seqs))
    case Confirm(num, i) =>
      if !DropsPart(n, s, num, i) then s
      else s.(status := s.status[i := NoServing], kv := WithoutPart(n, s.kv, i))
    case NoOperation => s
  }

  /** No shard is on its way in or out. */
  predicate Ready(s: GroupState) {
    forall i {:trigger s.status[i]} :: 0 <= i < |s.status| ==> s.status[i] == Serving || s.status[i] == NoServing
  }
}
