/** Every step of the sharded store keeps the invariant. */
module ShardSteps {
  import opened KvService
  import opened ShardService
  import opened ShardSystem
  import opened ShardInvariant
  import opened ShardFrame

  /** The group that commits, at its latest state. */
  ghost predicate Commits(env: Env, w: World, h: History, g: int, cmd: Command) {
    EnvOk(env) && Inv(env, w, h) && g in w.groups && cmd in w.groups[g].pending
  }

  lemma Facts(env: Env, w: World, h: History, g: int, cmd: Command)
    requires Commits(env, w, h, g, cmd)
    ensures w.groups[g].states != [] && Base(env, h, Last(w.groups[g])) && CommandOk(env, w, h, g, cmd)
    ensures InShape(env.n, cmd) && CanApply(env, w, Commit(g, cmd))
    ensures forall i {:trigger StateOk(env, h, g, Last(w.groups[g]), i)} :: 0 <= i < env.n ==>
      StateOk(env, h, g, Last(w.groups[g]), i) && LatestOk(env, h, Last(w.groups[g]), i)
  {
    assert CommandOk(env, w, h, g, cmd) && GroupOk(env, h, g, w.groups[g]);
    hide StateOk, LatestOk, EntryOk;
    forall i | 0 <= i < env.n
      ensures StateOk(env, h, g, Last(w.groups[g]), i) && LatestOk(env, h, Last(w.groups[g]), i)
    {
      InGroup(env, w, h, g, |w.groups[g].states| - 1, i);
    }
  }

  /** A command without effect leaves everything as it is. */
  lemma NothingChanges(env: Env, w: World, h: History, g: int, cmd: Command)
    requires Commits(env, w, h, g, cmd) && w.groups[g].states != []
      && EntryOk(env, h, g, Last(w.groups[g]), cmd, Last(w.groups[g]))
    ensures HistoryStep(env, w, h, g, h) && NewStateOk(env, w, h, g, cmd, h, Last(w.groups[g]))
  {
    Facts(env, w, h, g, cmd);
    var s := Last(w.groups[g]);
    hide StateOk, LatestOk, EntryOk, GroupOk, TokenOk, CommandOk;
    forall i | 0 <= i < env.n
      ensures LatestOk(env, h, s, i)
    {
      assert StateOk(env, h, g, s, i);
    }
  }

  // ----- Operations -----

  /** The clerk sends one operation at a time: what is recorded as done was done. */
  lemma DoneBefore(env: Env, w: World, h: History, g: int, op: Op)
    requires Commits(env, w, h, g, Operation(op)) && w.groups[g].states != []
    requires Seq(Last(w.groups[g]).clientSeq, op.clientId) >= op.seqNum
    ensures op in h.executed
  {
    Facts(env, w, h, g, Operation(op));
    var s := Last(w.groups[g]);
    var num, clerk := Seq(s.clientSeq, op.clientId), w.clerks[op.clientId];
    assert ClerkOk(h, op.clientId, clerk);
    assert Took(h, op.clientId, num);
    var later :| later in h.executed && later.clientId == op.clientId && later.seqNum == num;
    assert Issued(w, later) && clerk.ops[num - 1] == later;
    assert clerk.ops[op.seqNum - 1] == op;
    assert op.seqNum < num ==> clerk.ops[op.seqNum - 1] in h.executed;
  }

  /** An operation about to take effect has not taken effect anywhere before. */
  lemma NotDoneBefore(env: Env, w: World, h: History, g: int, op: Op)
    requires Commits(env, w, h, g, Operation(op)) && w.groups[g].states != [] && Shaped(env.n, Last(w.groups[g]))
    requires Executes(env.n, Last(w.groups[g]), op)
    ensures op !in h.executed
  {
    Facts(env, w, h, g, Operation(op));
    assert StateOk(env, h, g, Last(w.groups[g]), KeyShard(env.n, op.key));
  }

  lemma OperationKeeps(env: Env, w: World, h: History, g: int, op: Op)
    requires Commits(env, w, h, g, Operation(op))
    ensures CanApply(env, w, Commit(g, Operation(op)))
    ensures Inv(env, Committed(w, g, Operation(op), ApplyCommand(env.n, g, Last(w.groups[g]), Operation(op))),
      NextHistory(env, w, h, Commit(g, Operation(op))))
  {
    Facts(env, w, h, g, Operation(op));
    var s := Last(w.groups[g]);
    var s2, h2 := ApplyCommand(env.n, g, s, Operation(op)), NextHistory(env, w, h, Commit(g, Operation(op)));
    if Executes(env.n, s, op) {
      ExecutedOk(env, w, h, g, op);
    } else {
      if Serves(env.n, s, op) {
        DoneBefore(env, w, h, g, op);
      }
      NothingChanges(env, w, h, g, Operation(op));
    }
    CommitKeeps(env, w, h, g, Operation(op), h2, s2);
  }

  lemma ExecutedOk(env: Env, w: World, h: History, g: int, op: Op)
    requires Commits(env, w, h, g, Operation(op)) && w.groups[g].states != [] && Shaped(env.n, Last(w.groups[g]))
    requires Executes(env.n, Last(w.groups[g]), op)
    ensures var s2 := ApplyCommand(env.n, g, Last(w.groups[g]), Operation(op));
      var h2 := h.(store := Effect(h.store, op), executed := h.executed + {op});
      HistoryStep(env, w, h, g, h2) && NewStateOk(env, w, h, g, Operation(op), h2, s2)
  {
    Facts(env, w, h, g, Operation(op));
    var s := Last(w.groups[g]);
    var s2 := ApplyCommand(env.n, g, s, Operation(op));
    var h2 := h.(store := Effect(h.store, op), executed := h.executed + {op});
    assert s2 == s.(kv := Effect(s.kv, op), clientSeq := s.clientSeq[op.clientId := op.seqNum]);
    ExecutedSound(h, s.clientSeq, op);
    hide Inv, GroupOk, TokenOk, CommandOk;
    forall i | 0 <= i < env.n
      ensures ShardStep(env, w, h, g, h2, i)
      ensures StateOk(env, h2, g, s2, i) && LatestOk(env, h2, s2, i)
    {
      assert StateOk(env, h, g, s, i) && LatestOk(env, h, s, i);
      ExecutedShard(env.n, h, s, op, i);
      hide Mirrors, Sound, Part, Effect;
    }
    hide StateOk, LatestOk, ShardStep;
    IssuedToo(env, w, h, g, op);
  }

  lemma IssuedToo(env: Env, w: World, h: History, g: int, op: Op)
    requires Commits(env, w, h, g, Operation(op))
    ensures forall o {:trigger o in h.executed} :: o in h.executed + {op} ==> Issued(w, o)
  {
    assert CommandOk(env, w, h, g, Operation(op));
  }

  lemma ExecutedSound(h: History, seqs: map<int, int>, op: Op)
    requires Sound(h, seqs)
    ensures Sound(h.(executed := h.executed + {op}), seqs[op.clientId := op.seqNum])
  {
    var h2 := h.(executed := h.executed + {op});
    SoundStill(h, h2, seqs);
    assert op in h2.executed;
    assert Took(h2, op.clientId, op.seqNum);
  }

  /** An operation acts the same on the group's store and on the one store, and on no other shard. */
  lemma ExecutedShard(n: nat, h: History, s: GroupState, op: Op, i: nat)
    requires n > 0 && Seq(s.clientSeq, op.clientId) < op.seqNum
    ensures var h2 := h.(store := Effect(h.store, op), executed := h.executed + {op});
      var s2 := s.(kv := Effect(s.kv, op), clientSeq := s.clientSeq[op.clientId := op.seqNum]);
      && (Mirrors(n, h, s, i) ==> Mirrors(n, h2, s2, i))
      && (KeyShard(n, op.key) != i ==> SameShard(n, h, h2, i) && Part(n, s2.kv, i) == Part(n, s.kv, i))
  {
    PartEffect(n, h.store, op, i);
    PartEffect(n, s.kv, op, i);
    hide Part, Effect;
  }

  /** Taking one shard's part and applying an operation come in either order. */
  lemma PartEffect(n: nat, store: map<string, string>, op: Op, i: nat)
    requires n > 0
    ensures Part(n, Effect(store, op), i) ==
      if KeyShard(n, op.key) == i then Effect(Part(n, store, i), op) else Part(n, store, i)
  {
    assert KeyShard(n, op.key) == i ==> Value(Part(n, store, i), op.key) == Value(store, op.key);
  }

  lemma SameValue(n: nat, a: map<string, string>, b: map<string, string>, key: string)
    requires n > 0 && Part(n, a, KeyShard(n, key)) == Part(n, b, KeyShard(n, key))
    ensures Value(a, key) == Value(b, key)
  {
    var i := KeyShard(n, key);
    assert Value(Part(n, a, i), key) == Value(a, key);
    assert Value(Part(n, b, i), key) == Value(b, key);
  }

  // ----- Configurations -----

  /** A configuration takes effect only as the next one, and only when the group is ready for it. */
  lemma NextConfigOnly(env: Env, w: World, h: History, g: int, config: Config)
    requires Commits(env, w, h, g, Configure(config)) && w.groups[g].states != []
      && TakesConfig(Last(w.groups[g]), config)
    ensures var s := Last(w.groups[g]); config.num == s.config.num + 1 && (s.config.num == 0 || Ready(s))
    ensures config.num < |env.configs| && config == env.configs[config.num]
  {
    Facts(env, w, h, g, Configure(config));
  }

  lemma ConfigureKeeps(env: Env, w: World, h: History, g: int, config: Config)
    requires Commits(env, w, h, g, Configure(config))
    ensures CanApply(env, w, Commit(g, Configure(config)))
    ensures Inv(env, Committed(w, g, Configure(config), ApplyCommand(env.n, g, Last(w.groups[g]), Configure(config))),
      NextHistory(env, w, h, Commit(g, Configure(config))))
  {
    Facts(env, w, h, g, Configure(config));
    var s := Last(w.groups[g]);
    var s2, h2 := ApplyCommand(env.n, g, s, Configure(config)), NextHistory(env, w, h, Commit(g, Configure(config)));
    if TakesConfig(s, config) {
      NextConfigOnly(env, w, h, g, config);
      ConfiguredOk(env, w, h, g, config, h2, s2);
    } else {
      NothingChanges(env, w, h, g, Configure(config));
    }
    CommitKeeps(env, w, h, g, Configure(config), h2, s2);
  }

  lemma ConfiguredOk(env: Env, w: World, h: History, g: int, config: Config, h2: History, s2: GroupState)
    requires Commits(env, w, h, g, Configure(config)) && CanApply(env, w, Commit(g, Configure(config)))
      && TakesConfig(Last(w.groups[g]), config)
    requires s2 == ApplyCommand(env.n, g, Last(w.groups[g]), Configure(config))
      && h2 == NextHistory(env, w, h, Commit(g, Configure(config)))
    ensures HistoryStep(env, w, h, g, h2) && NewStateOk(env, w, h, g, Configure(config), h2, s2)
  {
    Facts(env, w, h, g, Configure(config));
    NextConfigOnly(env, w, h, g, config);
    var s := Last(w.groups[g]);
    SoundStill(h, h2, s.clientSeq);
    hide StateOk, LatestOk, ShardStep, Inv, Sound, CommandOk;
    forall i | 0 <= i < env.n
      ensures ShardStep(env, w, h, g, h2, i) && StateOk(env, h2, g, s2, i) && LatestOk(env, h2, s2, i)
      ensures h2.token[i] != h.token[i] ==> HeldAt(s2, h2.token[i], i)
    {
      assert StateOk(env, h, g, s, i) && LatestOk(env, h, s, i);
      ConfiguredShard(env, w, h, g, config, h2, s2, i);
    }
    AllIssued(env, w, h);
  }

  lemma AllIssued(env: Env, w: World, h: History)
    requires EnvOk(env) && Inv(env, w, h)
    ensures forall op {:trigger op in h.executed} :: op in h.executed ==> Issued(w, op)
  {
  }

  lemma ConfiguredShard(env: Env, w: World, h: History, g: int, config: Config, h2: History, s2: GroupState, i: nat)
    requires EnvOk(env) && Inv(env, w, h) && g in w.groups && w.groups[g].states != [] && i < env.n
    requires CanApply(env, w, Commit(g, Configure(config))) && TakesConfig(Last(w.groups[g]), config)
    requires var s := Last(w.groups[g]);
      && config.num == s.config.num + 1 < |env.configs|
      && config == env.configs[config.num]
      && (s.config.num == 0 || Ready(s))
    requires s2 == ApplyCommand(env.n, g, Last(w.groups[g]), Configure(config))
      && h2 == NextHistory(env, w, h, Commit(g, Configure(config)))
    requires StateOk(env, h, g, Last(w.groups[g]), i) && LatestOk(env, h, Last(w.groups[g]), i)
    ensures ShardStep(env, w, h, g, h2, i) && StateOk(env, h2, g, s2, i) && LatestOk(env, h2, s2, i)
    ensures h2.token[i] != h.token[i] ==> HeldAt(s2, h2.token[i], i)
  {
    var s := Last(w.groups[g]);
    NotAhead(env, w, h, g, i);
    SameHistory(env, h, h2, s, i);
    FirstConfig(env, w, h, i);
    assert Mirrors(env.n, h2, s, i) <==> Mirrors(env.n, h2, s2, i);
    hide Inv, Mirrors, Sound, Part, SameShard;
    assert h2.token[i] == if s2.status[i] == Serving then config.num else h.token[i];
  }

  /** A shard nobody got yet has nothing in it. */
  lemma FirstConfig(env: Env, w: World, h: History, i: nat)
    requires EnvOk(env) && Inv(env, w, h) && i < env.n
    ensures h.token[i] == 0 ==> Mirrors(env.n, h, Start(env.n), i)
  {
    assert TokenOk(env, w, h, i);
  }

  /** Only the token changed. */
  lemma SameHistory(env: Env, h: History, h2: History, s: GroupState, i: nat)
    requires HistoryShaped(env, h) && HistoryShaped(env, h2) && h2.store == h.store && h2.executed == h.executed
    ensures SameShard(env.n, h, h2, i) && (Mirrors(env.n, h, s, i) <==> Mirrors(env.n, h2, s, i))
      && (Sound(h, s.clientSeq) <==> Sound(h2, s.clientSeq))
  {
    if Sound(h, s.clientSeq) { SoundStill(h, h2, s.clientSeq); }
    if Sound(h2, s.clientSeq) { SoundStill(h2, h, s.clientSeq); }
  }

  /** No shard of a group's next configuration has got there before the group. */
  lemma NotAhead(env: Env, w: World, h: History, g: int, i: nat)
    requires EnvOk(env) && Inv(env, w, h) && g in w.groups && w.groups[g].states != [] && i < env.n
    requires Last(w.groups[g]).config.num + 1 < |env.configs|
    ensures var c := Last(w.groups[g]).config.num + 1; Owner(env, c, i) == g ==> h.token[i] < c
  {
    var c := Last(w.groups[g]).config.num + 1;
    if Owner(env, c, i) == g && h.token[i] >= c {
      assert TokenOk(env, w, h, i);
      assert Held(env, w, c, i);
      HeldReached(env, w, h, c, i);
    }
  }

  // ----- Shards coming in and going out -----

  lemma MergeKeeps(env: Env, w: World, h: History, g: int, cmd: Command)
    requires cmd.Merge? && Commits(env, w, h, g, cmd)
    ensures CanApply(env, w, Commit(g, cmd))
    ensures Inv(env, Committed(w, g, cmd, ApplyCommand(env.n, g, Last(w.groups[g]), cmd)),
      NextHistory(env, w, h, Commit(g, cmd)))
  {
    Facts(env, w, h, g, cmd);
    var s := Last(w.groups[g]);
    var s2, h2 := ApplyCommand(env.n, g, s, cmd), NextHistory(env, w, h, Commit(g, cmd));
    if TakesPart(env.n, s, cmd.num, cmd.shard) {
      MergedOk(env, w, h, g, cmd, h2, s2);
    } else {
      NothingChanges(env, w, h, g, cmd);
    }
    CommitKeeps(env, w, h, g, cmd, h2, s2);
  }

  /** The part that arrives is the shard of the one store, with every operation on it accounted for. */
  lemma ArrivesWhole(env: Env, w: World, h: History, g: int, cmd: Command)
    requires cmd.Merge? && Commits(env, w, h, g, cmd) && CanApply(env, w, Commit(g, cmd))
    requires TakesPart(env.n, Last(w.groups[g]), cmd.num, cmd.shard)
    ensures h.token[cmd.shard] == cmd.num - 1 && Gains(env, w, h, g, cmd.shard) && Sound(h, cmd.seqs)
    ensures cmd.data == Part(env.n, h.store, cmd.shard) && Covers(env.n, h, cmd.seqs, cmd.shard)
  {
    Facts(env, w, h, g, cmd);
    assert StateOk(env, h, g, Last(w.groups[g]), cmd.shard);
    hide Inv, GroupOk, TokenOk;
  }

  lemma MergedOk(env: Env, w: World, h: History, g: int, cmd: Command, h2: History, s2: GroupState)
    requires cmd.Merge? && Commits(env, w, h, g, cmd) && CanApply(env, w, Commit(g, cmd))
    requires TakesPart(env.n, Last(w.groups[g]), cmd.num, cmd.shard)
    requires s2 == ApplyCommand(env.n, g, Last(w.groups[g]), cmd) && h2 == NextHistory(env, w, h, Commit(g, cmd))
    ensures HistoryStep(env, w, h, g, h2) && NewStateOk(env, w, h, g, cmd, h2, s2)
  {
    Facts(env, w, h, g, cmd);
    ArrivesWhole(env, w, h, g, cmd);
    var s := Last(w.groups[g]);
    hide StateOk, LatestOk, ShardStep, Inv, Sound, Part, Covers, MaxMerge, Gains;
    forall i | 0 <= i < env.n
      ensures ShardStep(env, w, h, g, h2, i) && StateOk(env, h2, g, s2, i) && LatestOk(env, h2, s2, i)
    {
      assert StateOk(env, h, g, s, i) && LatestOk(env, h, s, i);
      MergedShardOk(env, w, h, g, cmd, h2, s2, i);
    }
    AllIssued(env, w, h);
  }

  lemma MergedShardOk(env: Env, w: World, h: History, g: int, cmd: Command, h2: History, s2: GroupState, i: nat)
    requires cmd.Merge? && Commits(env, w, h, g, cmd) && CanApply(env, w, Commit(g, cmd)) && i < env.n
    requires TakesPart(env.n, Last(w.groups[g]), cmd.num, cmd.shard)
    requires s2 == ApplyCommand(env.n, g, Last(w.groups[g]), cmd) && h2 == NextHistory(env, w, h, Commit(g, cmd))
    requires StateOk(env, h, g, Last(w.groups[g]), i) && LatestOk(env, h, Last(w.groups[g]), i)
    ensures ShardStep(env, w, h, g, h2, i) && StateOk(env, h2, g, s2, i) && LatestOk(env, h2, s2, i)
  {
    assert HistoryShaped(env, h) && HistoryShaped(env, h2);
    hide Inv, CommandOk, Mirrors, Sound, Part, Covers, MaxMerge, SameShard;
    var s := Last(w.groups[g]);
    ArrivesWhole(env, w, h, g, cmd);
    CommandFits(env, w, h, g, cmd);
    MergedSound(h, s.clientSeq, cmd.seqs);
    MergedShard(env, h, s, s2, cmd, i);
    SameHistory(env, h, h2, s2, i);
  }

  lemma CommandFits(env: Env, w: World, h: History, g: int, cmd: Command)
    requires cmd.Merge? && Commits(env, w, h, g, cmd)
    ensures Part(env.n, cmd.data, cmd.shard) == cmd.data
    ensures forall op {:trigger op in h.executed} :: op in h.executed ==> op.seqNum > 0
  {
    assert CommandOk(env, w, h, g, cmd);
    AllIssued(env, w, h);
  }

  lemma MergedSound(h: History, mine: map<int, int>, theirs: map<int, int>)
    requires Sound(h, mine) && Sound(h, theirs)
    ensures Sound(h, MaxMerge(mine, theirs))
  {
    var m := MaxMerge(mine, theirs);
    forall c | c in m && m[c] > 0
      ensures Took(h, c, m[c])
    {
      assert c in mine ==> mine[c] > 0 ==> Took(h, c, mine[c]);
      assert c in theirs ==> theirs[c] > 0 ==> Took(h, c, theirs[c]);
    }
  }

  lemma MaxCovers(n: nat, h: History, mine: map<int, int>, theirs: map<int, int>, i: nat)
    requires n > 0 && (Covers(n, h, mine, i) || Covers(n, h, theirs, i))
    requires forall op {:trigger op in h.executed} :: op in h.executed ==> op.seqNum > 0
    ensures Covers(n, h, MaxMerge(mine, theirs), i)
  {
    var m := MaxMerge(mine, theirs);
    forall op | op in h.executed && KeyShard(n, op.key) == i
      ensures Seq(m, op.clientId) >= op.seqNum
    {
      HigherOf(mine, theirs, op.clientId);
    }
  }

  lemma HigherOf(mine: map<int, int>, theirs: map<int, int>, c: int)
    ensures Seq(MaxMerge(mine, theirs), c) >= Seq(mine, c)
    ensures Seq(theirs, c) > 0 ==> Seq(MaxMerge(mine, theirs), c) >= Seq(theirs, c)
  {
  }

  lemma MergedShard(env: Env, h: History, s: GroupState, s2: GroupState, cmd: Command, i: nat)
    requires cmd.Merge? && env.n > 0 && i < env.n && Part(env.n, cmd.data, cmd.shard) == cmd.data
    requires s2.kv == s.kv + cmd.data && s2.clientSeq == MaxMerge(s.clientSeq, cmd.seqs)
    requires forall op {:trigger op in h.executed} :: op in h.executed ==> op.seqNum > 0
    ensures i != cmd.shard ==>
      Part(env.n, s2.kv, i) == Part(env.n, s.kv, i) && (Mirrors(env.n, h, s, i) ==> Mirrors(env.n, h, s2, i))
    ensures (i == cmd.shard && Part(env.n, s.kv, i) == map[]
             && cmd.data == Part(env.n, h.store, i) && Covers(env.n, h, cmd.seqs, i)) ==> Mirrors(env.n, h, s2, i)
  {
    PartOfSum(env.n, s.kv, cmd.data, cmd.shard, i);
    if Covers(env.n, h, s.clientSeq, i) || Covers(env.n, h, cmd.seqs, i) {
      MaxCovers(env.n, h, s.clientSeq, cmd.seqs, i);
    }
    hide Part, Covers, MaxMerge;
  }

  lemma PartOfSum(n: nat, a: map<string, string>, data: map<string, string>, shard: nat, i: nat)
    requires n > 0 && Part(n, data, shard) == data
    ensures i != shard ==> Part(n, a + data, i) == Part(n, a, i)
    ensures i == shard && Part(n, a, i) == map[] ==> Part(n, a + data, i) == data
  {
    assert forall key :: key in data ==> key in Part(n, data, shard) && KeyShard(n, key) == shard;
    if i == shard && Part(n, a, i) == map[] {
      forall key | key in a
        ensures KeyShard(n, key) != i
      {
        assert key !in Part(n, a, i);
      }
    }
  }

  lemma ConfirmKeeps(env: Env, w: World, h: History, g: int, cmd: Command)
    requires cmd.Confirm? && Commits(env, w, h, g, cmd)
    ensures CanApply(env, w, Commit(g, cmd))
    ensures Inv(env, Committed(w, g, cmd, ApplyCommand(env.n, g, Last(w.groups[g]), cmd)),
      NextHistory(env, w, h, Commit(g, cmd)))
  {
    Facts(env, w, h, g, cmd);
    var s := Last(w.groups[g]);
    var s2 := ApplyCommand(env.n, g, s, cmd);
    if DropsPart(env.n, s, cmd.num, cmd.shard) {
      DroppedOk(env, w, h, g, cmd, s2);
    } else {
      NothingChanges(env, w, h, g, cmd);
    }
    CommitKeeps(env, w, h, g, cmd, h, s2);
  }

  lemma DroppedOk(env: Env, w: World, h: History, g: int, cmd: Command, s2: GroupState)
    requires cmd.Confirm? && Commits(env, w, h, g, cmd) && CanApply(env, w, Commit(g, cmd))
    requires DropsPart(env.n, Last(w.groups[g]), cmd.num, cmd.shard)
      && s2 == ApplyCommand(env.n, g, Last(w.groups[g]), cmd)
    ensures HistoryStep(env, w, h, g, h) && NewStateOk(env, w, h, g, cmd, h, s2)
  {
    Facts(env, w, h, g, cmd);
    var s := Last(w.groups[g]);
    forall i | 0 <= i < env.n
      ensures ShardStep(env, w, h, g, h, i) && StateOk(env, h, g, s2, i) && LatestOk(env, h, s2, i)
    {
      assert StateOk(env, h, g, s, i) && LatestOk(env, h, s, i);
      PartWithout(env.n, s.kv, cmd.shard, i);
      hide Inv, GroupOk, TokenOk, CommandOk, Sound, Part, Covers;
    }
    hide StateOk, LatestOk, ShardStep, GroupOk, TokenOk, Sound, Part;
  }

  lemma PartWithout(n: nat, kv: map<string, string>, shard: nat, i: nat)
    requires n > 0
    ensures Part(n, WithoutPart(n, kv, shard), i) == if i == shard then map[] else Part(n, kv, i)
  {
  }
}
