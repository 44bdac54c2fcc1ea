/** A replica of a shardkv group: the loops that apply commands and answer the other groups. */
module ShardServer {
  import opened KvService
  import opened Service
  import opened RaftCluster
  import opened RaftPeer
  import opened ShardService
  import Rebalance
  import Utf8

  /** Which shard a key is in. */
  method Key2Shard(n: nat, key: string) returns (shard: nat)
    requires n > 0
    ensures shard == KeyShard(n, key) == if Utf8.Bytes(key) == [] then 0 else Utf8.Bytes(key)[0] % n
  {
    Utf8.ShardOfKey(n, key);
    shard := 0;
    if |key| > 0 {
      shard := FirstByte(key[0]);
    }
    shard := shard % n;
  }

  /** Copies one shard out of a store. */
  method CopyPart(n: nat, store: map<string, string>, i: nat) returns (data: map<string, string>)
    requires n > 0
    ensures data == Part(n, store, i)
  {
    data := map[];
    var left := store.Keys;
    while left != {}
      invariant left <= store.Keys
      invariant data == map key | key in store && key !in left && KeyShard(n, key) == i :: store[key]
      decreases left
    {
      var key :| key in left;
      left := left - {key};
      var shard := Key2Shard(n, key);
      if shard == i {
        data := data[key := store[key]];
      }
    }
  }

  lemma MergeOneMore(mine: map<int, int>, theirs: map<int, int>, c: int, v: int)
    requires c !in theirs
    ensures var m := MaxMerge(mine, theirs); MaxMerge(mine, theirs[c := v]) == if Seq(m, c) < v then m[c := v] else m
  {
    var m := MaxMerge(mine, theirs);
    assert Seq(m, c) == Seq(mine, c);
  }

  class ShardKV {
    const n: nat
    const gid: int
    const shardsState: array<Status>
    var currentState: map<string, string>
    var clientSeq: map<int, int>
    var config: Config
    var prevConfig: Config
    var lastIncludedIndex: int

    ghost function State(): GroupState
      reads this, shardsState
    {
      GroupState(currentState, clientSeq, shardsState[..], config, prevConfig)
    }

    ghost predicate Valid()
      reads this, shardsState
    {
      Shaped(n, State())
    }

    constructor (n: nat, gid: int)
      requires n > 0
      ensures Valid() && fresh(shardsState) && this.n == n && this.gid == gid && State() == Start(n)
        && lastIncludedIndex == 0
    {
      this.n, this.gid := n, gid;
      currentState, clientSeq, config, prevConfig, lastIncludedIndex := map[], map[], NoConfig(n), NoConfig(n), 0;
      shardsState := new Status[n](i => NoServing);
    }

    /** Takes over a snapshot. */
    method ReadSnapshot(data: GroupState, index: int)
      requires Valid() && Shaped(n, data)
      modifies this, shardsState
      ensures Valid() && State() == data && lastIncludedIndex == index
    {
      currentState, clientSeq, config, prevConfig := data.kv, data.clientSeq, data.config, data.prev;
      for i := 0 to n
        invariant shardsState[..i] == data.status[..i]
        invariant currentState == data.kv && clientSeq == data.clientSeq && config == data.config
          && prevConfig == data.prev
      {
        shardsState[i] := data.status[i];
      }
      lastIncludedIndex := index;
    }

    /** Gives every shard its place in the new configuration. */
    method UpdateShardsState()
      requires Valid()
      modifies shardsState
      ensures Valid() && State() == old(State()).(status := shardsState[..])
      ensures forall i {:trigger shardsState[i]} :: 0 <= i < n ==>
        shardsState[i] == NewStatus(gid, old(shardsState[i]), prevConfig, config, i)
    {
      if prevConfig.num == 0 {
        for i := 0 to n
          invariant forall j {:trigger shardsState[j]} :: 0 <= j < n ==>
            shardsState[j] ==
              if j < i then NewStatus(gid, old(shardsState[j]), prevConfig, config, j) else old(shardsState[j])
        {
          if config.shards[i] == gid {
            shardsState[i] := Serving;
          }
        }
        return;
      }
      for i := 0 to n
        invariant forall j {:trigger shardsState[j]} :: 0 <= j < n ==>
          shardsState[j] ==
            if j < i then NewStatus(gid, old(shardsState[j]), prevConfig, config, j) else old(shardsState[j])
      {
        if prevConfig.shards[i] == gid && config.shards[i] == gid {
          shardsState[i] := Serving;
        } else if prevConfig.shards[i] != gid && config.shards[i] == gid {
          shardsState[i] := Pulling;
        } else if prevConfig.shards[i] == gid && config.shards[i] != gid {
          shardsState[i] := BePulled;
        } else {
          shardsState[i] := NoServing;
        }
      }
    }

    method CopyInto(shardData: map<string, string>)
      modifies this`currentState
      ensures currentState == old(currentState) + shardData
    {
      var left := shardData.Keys;
      ghost var merged: map<string, string> := map[];
      while left != {}
        invariant left <= shardData.Keys && merged.Keys == shardData.Keys - left
        invariant forall key {:trigger merged[key]} :: key in merged ==> merged[key] == shardData[key]
        invariant currentState == old(currentState) + merged
        decreases left
      {
        var key :| key in left;
        left := left - {key};
        currentState := currentState[key := shardData[key]];
        merged := merged[key := shardData[key]];
      }
      assert merged == shardData;
    }

    method MergeShardData(shardIndex: nat, shardData: map<string, string>)
      requires Valid() && shardIndex < n
      modifies this`currentState, shardsState
      ensures Valid()
        && State() == old(State()).(kv := old(currentState) + shardData,
          status := old(shardsState[..])[shardIndex := Serving])
    {
      CopyInto(shardData);
      shardsState[shardIndex] := Serving;
    }

    method MergeClientSeqNum(theirs: map<int, int>)
      requires Valid()
      modifies this`clientSeq
      ensures clientSeq == MaxMerge(old(clientSeq), theirs)
    {
      var left := theirs.Keys;
      ghost var merged: map<int, int> := map[];
      while left != {}
        invariant left <= theirs.Keys && merged.Keys == theirs.Keys - left
        invariant forall c {:trigger merged[c]} :: c in merged ==> merged[c] == theirs[c]
        invariant clientSeq == MaxMerge(old(clientSeq), merged)
        decreases left
      {
        ghost var some := Rebalance.Member(left);
        var key :| key in left;
        left := left - {key};
        MergeOneMore(old(clientSeq), merged, key, theirs[key]);
        merged := merged[key := theirs[key]];
        if Seq(clientSeq, key) < theirs[key] {
          clientSeq := clientSeq[key := theirs[key]];
        }
      }
      assert merged.Keys == theirs.Keys;
      assert forall c :: c in theirs ==> c in merged && merged[c] == theirs[c];
      assert merged == theirs;
    }

    method DropShard(shardIndex: nat)
      requires Valid()
      modifies this`currentState
      ensures currentState == WithoutPart(n, old(currentState), shardIndex)
    {
      var left := currentState.Keys;
      ghost var store := currentState;
      while left != {}
        invariant left <= store.Keys
        invariant currentState ==
          map key | key in store && (key in left || KeyShard(n, key) != shardIndex) :: store[key]
        decreases left
      {
        var key :| key in left;
        left := left - {key};
        var shard := Key2Shard(n, key);
        if shard == shardIndex {
          currentState := currentState - {key};
        }
      }
    }

    method ApplyToStateMachine(op: Op)
      requires Valid()
      modifies this`currentState, this`clientSeq
      ensures currentState == Effect(old(currentState), op) && clientSeq == old(clientSeq)[op.clientId := op.seqNum]
    {
      clientSeq := clientSeq[op.clientId := op.seqNum];
      match op.optype {
        case Put => currentState := currentState[op.key := op.value];
        case Append =>
          var currValue := Value(currentState, op.key);
          currentState := currentState[op.key := currValue + op.value];
        case _ =>
      }
    }

    /** Operations and configurations up to the snapshot's index are not applied again. */
    predicate Stale(cmd: Command, index: int)
      reads this
    {
      (cmd.Operation? || cmd.Configure?) && index <= lastIncludedIndex
    }

    /**
     Applies one committed command; an operation is answered only where its shard is served, a Get with the value it
     read.
     */
    method OnCommand(cmd: Command, index: int) returns (answered: bool, value: string)
      requires Valid() && InShape(n, cmd)
      modifies this, shardsState
      ensures Valid() && lastIncludedIndex == old(lastIncludedIndex)
      ensures State() == if old(Stale(cmd, index)) then old(State()) else ApplyCommand(n, gid, old(State()), cmd)
      ensures cmd.Operation? ==> (answered <==> !old(Stale(cmd, index)) && Serves(n, old(State()), cmd.op))
      ensures answered && cmd.Operation? ==>
        value == if cmd.op.optype == Get then Value(old(currentState), cmd.op.key) else cmd.op.value
    {
      answered, value := false, "";
      match cmd {
        case Operation(op) =>
          if index <= lastIncludedIndex {
            return;
          }
          var shardIndex := Key2Shard(n, op.key);
          if shardsState[shardIndex] != Serving {
            return;
          }
          if op.clientId !in clientSeq {
            clientSeq := clientSeq[op.clientId := 0];
          }
          answered, value := true, op.value;
          if op.optype == Get {
            value := Value(currentState, op.key);
          }
          if clientSeq[op.clientId] >= op.seqNum {
          } else {
            ApplyToStateMachine(op);
          }
        case Configure(c) =>
          if index <= lastIncludedIndex {
            return;
          }
          if config.num == 0 || c.num == config.num + 1 {
            prevConfig := config;
            config := c;
            UpdateShardsState();
            assert shardsState[..] == ApplyCommand(n, gid, old(State()), cmd).status;
          }
        case Merge(num, i, data, seqs) =>
          if num != config.num {
            return;
          }
          if shardsState[i] == Pulling {
            MergeShardData(i, data);
            MergeClientSeqNum(seqs);
          }
        case Confirm(num, i) =>
          if num != config.num {
            return;
          }
          if shardsState[i] == BePulled {
            shardsState[i] := NoServing;
            DropShard(i);
          }
        case NoOperation =>
      }
    }

    /** The replica this service and its peer make up, with a message in hand. */
    ghost function Holder(rf: Raft, m: ApplyMsg): Node
      reads this, shardsState, rf
    {
      Node(rf.State(), {}, {}, Idle, Holding(m), GroupData(n, gid, State()), lastIncludedIndex)
    }

    /** The message is one for this group. */
    predicate ForThisGroup(m: ApplyMsg) {
      match m
      case Install(_, _, data) => data.GroupData? && data.n == n && data.gid == gid && Shaped(n, data.group)
      case Command(cmd, _) => cmd.GroupCmd? && InShape(n, cmd.cmd)
    }

    /**
     One message of the apply channel; `over` is whether the saved peer state has outgrown its limit, and `took`
     whether a snapshot was taken, which commands that are refused do not cause.
     */
    method OnApplyMsg(rf: Raft, m: ApplyMsg, over: bool) returns (took: bool, answered: bool, value: string)
      requires Valid() && rf.Valid() && ForThisGroup(m) && InBounds(Holder(rf, m), Handle(over))
      modifies this, shardsState, rf
      ensures Valid() && rf.Valid()
      ensures took <==>
        over && m.Command? && !old(Stale(m.command.cmd, m.index)) && !Refuses(n, old(State()), m.command.cmd)
      ensures m.Command? && Refuses(n, old(State()), m.command.cmd) ==>
        State() == old(State()) && rf.State() == old(rf.State())
      ensures InBounds(old(Holder(rf, m)), Handle(took))
      ensures var after := HandleMessage(old(Holder(rf, m)), took);
              rf.State() == after.rf && GroupData(n, gid, State()) == after.kv && lastIncludedIndex == after.kvLast
      ensures m.Command? && m.command.cmd.Operation? ==>
                var op := m.command.cmd.op;
                && (answered <==> m.index > old(lastIncludedIndex) && Serves(n, old(State()), op))
                && (answered && op.optype == Get ==> value == Value(old(currentState), op.key))
    {
      took, answered, value := false, false, "";
      match m {
        case Install(index, term, data) =>
          var installed := rf.CondInstall(term, index, data);
          if installed {
            ReadSnapshot(data.group, index);
          }
        case Command(cmd, index) =>
          var c := cmd.cmd;
          var refused := c.NoOperation? || Stale(c, index) || (c.Merge? && c.num != config.num)
            || (c.Confirm? && c.num != config.num)
            || (c.Operation? && shardsState[KeyShard(n, c.op.key)] != Serving);
          answered, value := OnCommand(c, index);
          if !refused && over {
            took := true;
            var group := GroupState(currentState, clientSeq, shardsState[..], config, prevConfig);
            rf.TakeSnapshot(index, GroupData(n, gid, group));
          }
      }
    }

    /** Whether no shard is on its way. */
    method ShardsStateReady() returns (ready: bool)
      requires Valid()
      ensures ready <==> Ready(State())
    {
      for i := 0 to n
        invariant forall j {:trigger shardsState[j]} :: 0 <= j < i ==>
          shardsState[j] == Serving || shardsState[j] == NoServing
      {
        if shardsState[i] != NoServing && shardsState[i] != Serving {
          assert State().status[i] == shardsState[i];
          return false;
        }
      }
      return true;
    }

    /**
     Answers a pull: the shard and all sequence numbers, in the same configuration and while it waits to be pulled.
     */
    method ShardsRequestHandler(num: nat, i: nat) returns (ok: bool, data: map<string, string>, seqs: map<int, int>)
      requires Valid() && i < n
      ensures ok <==> num == config.num && shardsState[i] == BePulled
      ensures ok ==> data == Part(n, currentState, i) && seqs == clientSeq
    {
      ok, data, seqs := false, map[], map[];
      if num != config.num {
        return;
      }
      if shardsState[i] == BePulled {
        ok := true;
        data := CopyPart(n, currentState, i);
        var left := clientSeq.Keys;
        while left != {}
          invariant left <= clientSeq.Keys && seqs == map c | c in clientSeq.Keys - left :: clientSeq[c]
          decreases left
        {
          ghost var some := Rebalance.Member(left);
          var key :| key in left;
          left := left - {key};
          seqs := seqs[key := clientSeq[key]];
        }
      }
    }

    /** Answers whether the shard has arrived: it is served in that configuration, or that configuration is past. */
    method ShardsConfirmHandler(num: nat, i: nat) returns (ok: bool, replyNum: nat)
      requires Valid() && i < n
      ensures ok <==> Arrived(State(), num, i)
      ensures ok ==> num <= replyNum == config.num
    {
      ok, replyNum := false, 0;
      if config.num < num {
        return;
      }
      if (config.num == num && shardsState[i] == Serving) || config.num > num {
        ok, replyNum := true, config.num;
      }
    }

    /** The shards in a given state, as the pull and the confirm loop collect them. */
    method ShardsIn(status: Status) returns (found: seq<nat>)
      requires Valid()
      ensures forall i {:trigger i in found} :: i in found <==> 0 <= i < n && shardsState[i] == status
    {
      found := [];
      for index := 0 to n
        invariant forall i {:trigger i in found} :: i in found <==> 0 <= i < index && shardsState[i] == status
      {
        if shardsState[index] == status {
          found := found + [index];
        }
      }
    }

    /** The next configuration to fetch, when there is a newer one and the group is ready or has none yet. */
    method WantsConfig(newest: nat) returns (wants: bool, target: nat)
      requires Valid()
      ensures wants <==> config.num < newest && (config.num == 0 || Ready(State()))
      ensures target == config.num + 1
    {
      var allShardsReady := ShardsStateReady();
      var needToUpdate := config.num < newest;
      target := config.num + 1;
      if config.num == 0 {
        allShardsReady := true;
      }
      wants := needToUpdate && allShardsReady;
    }
  }
}
