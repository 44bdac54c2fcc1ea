/** How the history may move when a group commits a command, and what that leaves standing. */
module ShardFrame {
  import opened ShardService
  import opened ShardSystem
  import opened ShardInvariant

  /** The shard's content and the operations on it are as before. */
  ghost predicate SameShard(n: nat, h: History, h2: History, i: nat)
    requires n > 0
  {
    && Part(n, h2.store, i) == Part(n, h.store, i)
    && forall op {:trigger op in h2.executed} :: op in h2.executed && KeyShard(n, op.key) == i ==> op in h.executed
  }

  /** The group may take the shard's token on to the next configuration: the holder before is itself, or is past it. */
  ghost predicate Gains(env: Env, w: World, h: History, g: int, i: nat)
    requires EnvOk(env) && HistoryShaped(env, h) && i < env.n
  {
    var t := h.token[i];
    t + 1 < |env.configs| && Owner(env, t + 1, i) == g
    && (t == 0 || Owner(env, t, i) == g || Reached(w, Owner(env, t, i), t + 1))
  }

  ghost predicate ShardStep(env: Env, w: World, h: History, g: int, h2: History, i: nat)
    requires EnvOk(env) && HistoryShaped(env, h) && HistoryShaped(env, h2) && i < env.n
    requires g in w.groups && w.groups[g].states != [] && Shaped(env.n, Last(w.groups[g]))
  {
    || (h2.token[i] == h.token[i] && (SameShard(env.n, h, h2, i) || Last(w.groups[g]).status[i] == Serving))
    || (h2.token[i] == h.token[i] + 1 && SameShard(env.n, h, h2, i) && Gains(env, w, h, g, i))
  }

  ghost predicate HistoryStep(env: Env, w: World, h: History, g: int, h2: History)
    requires EnvOk(env) && HistoryShaped(env, h)
  {
    && HistoryShaped(env, h2) && h.executed <= h2.executed
    && g in w.groups && w.groups[g].states != [] && Shaped(env.n, Last(w.groups[g]))
    && forall i {:trigger ShardStep(env, w, h, g, h2, i)} :: 0 <= i < env.n ==> ShardStep(env, w, h, g, h2, i)
  }

  lemma SoundStill(h: History, h2: History, seqs: map<int, int>)
    requires h.executed <= h2.executed && Sound(h, seqs)
    ensures Sound(h2, seqs)
  {
    forall c | c in seqs && seqs[c] > 0
      ensures Took(h2, c, seqs[c])
    {
      assert Took(h, c, seqs[c]);
      var op :| op in h.executed && op.clientId == c && op.seqNum == seqs[c];
      assert op in h2.executed;
    }
  }

  lemma MirrorsStill(n: nat, h: History, h2: History, s: GroupState, i: nat)
    requires n > 0 && SameShard(n, h, h2, i) && Mirrors(n, h, s, i)
    ensures Mirrors(n, h2, s, i)
  {
  }

  lemma InGroup(env: Env, w: World, h: History, g: int, k: nat, i: nat)
    requires EnvOk(env) && Inv(env, w, h) && g in w.groups && k < |w.groups[g].states| && i < env.n
    ensures GroupOk(env, h, g, w.groups[g]) && StateOk(env, h, g, w.groups[g].states[k], i)
    ensures LatestOk(env, h, Last(w.groups[g]), i)
  {
    assert GroupOk(env, h, g, w.groups[g]);
    hide StateOk, LatestOk, EntryOk, Base;
    assert StateOk(env, h, g, w.groups[g].states[k], i);
    assert LatestOk(env, h, Last(w.groups[g]), i);
  }

  /** While a group serves a shard, no other copy of it is waiting to be pulled in the next configuration. */
  lemma NoCopyWaits(env: Env, w: World, h: History, g: int, i: nat, g2: int, k: nat)
    requires EnvOk(env) && Inv(env, w, h) && i < env.n && g in w.groups && g2 in w.groups && k < |w.groups[g2].states|
    requires GroupOk(env, h, g, w.groups[g]) && Last(w.groups[g]).status[i] == Serving
    ensures var s := w.groups[g2].states[k];
      Shaped(env.n, s) && (s.status[i] == BePulled ==> h.token[i] != s.config.num - 1)
  {
    InGroup(env, w, h, g, |w.groups[g].states| - 1, i);
    InGroup(env, w, h, g2, k, i);
    ConfigsGrow(env, h, g2, w.groups[g2], k, |w.groups[g2].states| - 1);
    hide GroupOk, Inv, Mirrors;
  }

  lemma StateStill(env: Env, w: World, h: History, g: int, h2: History, g2: int, k: nat, i: nat)
    requires EnvOk(env) && Inv(env, w, h) && HistoryStep(env, w, h, g, h2)
    requires g2 in w.groups && k < |w.groups[g2].states| && i < env.n
    ensures StateOk(env, h2, g2, w.groups[g2].states[k], i)
  {
    var s := w.groups[g2].states[k];
    InGroup(env, w, h, g2, k, i);
    SoundStill(h, h2, s.clientSeq);
    assert ShardStep(env, w, h, g, h2, i);
    if s.status[i] == BePulled && h2.token[i] == s.config.num - 1 {
      if Last(w.groups[g]).status[i] == Serving && h2.token[i] == h.token[i] {
        InGroup(env, w, h, g, 0, i);
        NoCopyWaits(env, w, h, g, i, g2, k);
      } else {
        MirrorsStill(env.n, h, h2, s, i);
      }
    }
    hide Inv, GroupOk, Mirrors, Sound, SameShard, Gains;
  }

  lemma LatestStill(env: Env, w: World, h: History, g: int, h2: History, g2: int, i: nat)
    requires EnvOk(env) && Inv(env, w, h) && HistoryStep(env, w, h, g, h2)
    requires g2 in w.groups && w.groups[g2].states != [] && g2 != g && i < env.n
    ensures Shaped(env.n, Last(w.groups[g2])) && LatestOk(env, h2, Last(w.groups[g2]), i)
  {
    var s := Last(w.groups[g2]);
    InGroup(env, w, h, g2, |w.groups[g2].states| - 1, i);
    InGroup(env, w, h, g, |w.groups[g].states| - 1, i);
    assert ShardStep(env, w, h, g, h2, i);
    hide Inv, GroupOk;
    if s.status[i] == Serving && SameShard(env.n, h, h2, i) {
      MirrorsStill(env.n, h, h2, s, i);
    }
    hide Mirrors, Sound, SameShard;
  }

  lemma TokenStill(env: Env, w: World, h: History, g: int, h2: History, w2: World, i: nat)
    requires EnvOk(env) && Inv(env, w, h) && HistoryStep(env, w, h, g, h2) && i < env.n
    requires Extends(w, w2)
      && (h2.token[i] != h.token[i] ==> h2.token[i] < |env.configs| && Held(env, w2, h2.token[i], i))
    ensures TokenOk(env, w2, h2, i)
  {
    assert TokenOk(env, w, h, i) && ShardStep(env, w, h, g, h2, i);
    InGroup(env, w, h, g, |w.groups[g].states| - 1, i);
    hide Inv, GroupOk, Mirrors;
    forall c: nat | 1 <= c <= h2.token[i]
      ensures Held(env, w2, c, i)
    {
      if c <= h.token[i] {
        HeldStill(env, w, w2, c, i);
      }
    }
  }

  /** Every group's states are still there. */
  ghost predicate Extends(w: World, w2: World) {
    && w2.groups.Keys == w.groups.Keys
    && forall g {:trigger w2.groups[g]} :: g in w.groups ==> w.groups[g].states <= w2.groups[g].states
  }

  lemma HeldStill(env: Env, w: World, w2: World, c: nat, i: nat)
    requires EnvOk(env) && c < |env.configs| && i < env.n && Held(env, w, c, i) && Extends(w, w2)
    ensures Held(env, w2, c, i)
  {
    var g := Owner(env, c, i);
    var k :| 0 <= k < |w.groups[g].states| && HeldAt(w.groups[g].states[k], c, i);
    assert w.groups[g].states <= w2.groups[g].states;
    assert w2.groups[g].states[k] == w.groups[g].states[k];
  }

  // ----- Committing a command -----

  ghost function Committed(w: World, g: int, cmd: Command, s2: GroupState): World
    requires g in w.groups
  {
    var group := w.groups[g];
    w.(groups := w.groups[g := group.(log := group.log + [cmd], states := group.states + [s2])])
  }

  /** Its configuration does not go down, and within one configuration a ready group stays ready. */
  ghost predicate Forward(s: GroupState, s2: GroupState) {
    s2.config.num >= s.config.num && (s2.config.num == s.config.num && Ready(s) ==> Ready(s2))
  }

  lemma CommandStill(env: Env, w: World, h: History, g: int, h2: History, cmd: Command, s2: GroupState, g2: int,
                     c: Command)
    requires EnvOk(env) && Inv(env, w, h) && HistoryStep(env, w, h, g, h2)
    requires Forward(Last(w.groups[g]), s2) && g2 in w.groups && c in w.groups[g2].pending
    ensures CommandOk(env, Committed(w, g, cmd, s2), h2, g2, c)
  {
    assert CommandOk(env, w, h, g2, c);
    hide GroupOk, TokenOk, Sound;
    match c
    case Merge(num, i, data, seqs) =>
      MergeStill(env, w, h, g, h2, cmd, s2, g2, c);
    case Confirm(num, i) =>
      assert ShardStep(env, w, h, g, h2, i);
    case _ =>
  }

  lemma MergeStill(env: Env, w: World, h: History, g: int, h2: History, cmd: Command, s2: GroupState, g2: int,
                   c: Command)
    requires EnvOk(env) && Inv(env, w, h) && HistoryStep(env, w, h, g, h2) && c.Merge?
    requires Forward(Last(w.groups[g]), s2) && g2 in w.groups && CommandOk(env, w, h, g2, c)
    ensures CommandOk(env, Committed(w, g, cmd, s2), h2, g2, c)
  {
    assert HistoryShaped(env, h);
    hide Inv, Sound, Covers, Part, SameShard, Forward;
    assert ShardStep(env, w, h, g, h2, c.shard);
    SoundStill(h, h2, c.seqs);
    ReachedStill(w, g, cmd, s2, g2, c.num);
    ReachedStill(w, g, cmd, s2, Owner(env, c.num - 1, c.shard), c.num);
    if h2.token[c.shard] == c.num - 1 {
      PartFrozen(env, w, h, g, h2, c.num, c.shard);
      SamePart(env.n, h, h2, c.seqs, c.shard);
    }
    hide HistoryStep, EnvOk, Gains, Committed, Reached;
  }

  lemma ReachedStill(w: World, g: int, cmd: Command, s2: GroupState, g2: int, c: nat)
    requires g in w.groups && w.groups[g].states != [] && Forward(Last(w.groups[g]), s2) && Reached(w, g2, c)
    ensures Reached(Committed(w, g, cmd, s2), g2, c)
  {
  }

  lemma SamePart(n: nat, h: History, h2: History, seqs: map<int, int>, i: nat)
    requires n > 0 && SameShard(n, h, h2, i)
    ensures Part(n, h2.store, i) == Part(n, h.store, i) && (Covers(n, h, seqs, i) ==> Covers(n, h2, seqs, i))
  {
  }

  /** A part on its way to the next owner no longer changes. */
  lemma PartFrozen(env: Env, w: World, h: History, g: int, h2: History, num: nat, i: nat)
    requires EnvOk(env) && Inv(env, w, h) && HistoryStep(env, w, h, g, h2) && i < env.n && 2 <= num < |env.configs|
    requires h.token[i] >= num - 1 == h2.token[i] && Reached(w, Owner(env, num - 1, i), num)
    ensures SameShard(env.n, h, h2, i)
  {
    InGroup(env, w, h, g, |w.groups[g].states| - 1, i);
    assert ShardStep(env, w, h, g, h2, i);
    hide Inv, GroupOk, SameShard, Mirrors, HistoryStep;
  }

  /** What is left to show of the group that commits. */
  ghost predicate NewStateOk(env: Env, w: World, h: History, g: int, cmd: Command, h2: History, s2: GroupState)
    requires EnvOk(env) && HistoryShaped(env, h) && HistoryShaped(env, h2) && g in w.groups && w.groups[g].states != []
  {
    && Shaped(env.n, s2) && EntryOk(env, h2, g, Last(w.groups[g]), cmd, s2) && Forward(Last(w.groups[g]), s2)
    && (forall i {:trigger StateOk(env, h2, g, s2, i)} :: 0 <= i < env.n ==> StateOk(env, h2, g, s2, i))
    && (forall i {:trigger LatestOk(env, h2, s2, i)} :: 0 <= i < env.n ==> LatestOk(env, h2, s2, i))
    && (forall i {:trigger h2.token[i]} :: 0 <= i < env.n && h2.token[i] != h.token[i] ==> HeldAt(s2, h2.token[i], i))
    && (forall op {:trigger op in h2.executed} :: op in h2.executed ==> Issued(w, op))
  }

  lemma NewGroupOk(env: Env, w: World, h: History, g: int, cmd: Command, h2: History, s2: GroupState)
    requires EnvOk(env) && Inv(env, w, h) && HistoryStep(env, w, h, g, h2) && NewStateOk(env, w, h, g, cmd, h2, s2)
    ensures GroupOk(env, h2, g, Committed(w, g, cmd, s2).groups[g])
  {
    var group := w.groups[g];
    var group2 := Committed(w, g, cmd, s2).groups[g];
    assert GroupOk(env, h, g, group);
    forall k, i | 0 <= k < |group2.states| && 0 <= i < env.n
      ensures StateOk(env, h2, g, group2.states[k], i)
    {
      if k < |group.states| {
        StateStill(env, w, h, g, h2, g, k, i);
      } else {
        assert StateOk(env, h2, g, s2, i);
      }
    }
    forall k | 0 <= k < |group2.log|
      ensures EntryOk(env, h2, g, group2.states[k], group2.log[k], group2.states[k + 1])
    {
      if k < |group.log| {
        assert EntryOk(env, h, g, group.states[k], group.log[k], group.states[k + 1]);
      }
    }
    hide StateOk, LatestOk, EntryOk, Inv, HistoryStep;
    forall k | 0 <= k < |group2.states|
      ensures Base(env, h2, group2.states[k])
    {
      assert StateOk(env, h2, g, group2.states[k], 0);
      StateIsBase(env, h2, g, group2.states[k]);
    }
    forall i | 0 <= i < env.n
      ensures LatestOk(env, h2, Last(group2), i)
    {
      assert LatestOk(env, h2, s2, i);
    }
  }

  lemma StateIsBase(env: Env, h: History, g: int, s: GroupState)
    requires EnvOk(env) && HistoryShaped(env, h) && StateOk(env, h, g, s, 0)
    ensures Base(env, h, s)
  {
  }

  lemma OtherGroupOk(env: Env, w: World, h: History, g: int, h2: History, g2: int)
    requires EnvOk(env) && Inv(env, w, h) && HistoryStep(env, w, h, g, h2) && g2 in w.groups && g2 != g
    ensures GroupOk(env, h2, g2, w.groups[g2])
  {
    var group := w.groups[g2];
    assert GroupOk(env, h, g2, group);
    forall k, i | 0 <= k < |group.states| && 0 <= i < env.n
      ensures StateOk(env, h2, g2, group.states[k], i)
    {
      StateStill(env, w, h, g, h2, g2, k, i);
    }
    forall k | 0 <= k < |group.log|
      ensures EntryOk(env, h2, g2, group.states[k], group.log[k], group.states[k + 1])
    {
      assert EntryOk(env, h, g2, group.states[k], group.log[k], group.states[k + 1]);
    }
    forall i | 0 <= i < env.n
      ensures LatestOk(env, h2, Last(group), i)
    {
      LatestStill(env, w, h, g, h2, g2, i);
    }
    hide StateOk, LatestOk, EntryOk, Inv, HistoryStep;
    forall k | 0 <= k < |group.states|
      ensures Base(env, h2, group.states[k])
    {
      assert StateOk(env, h2, g2, group.states[k], 0);
      StateIsBase(env, h2, g2, group.states[k]);
    }
  }

  lemma CommitKeeps(env: Env, w: World, h: History, g: int, cmd: Command, h2: History, s2: GroupState)
    requires EnvOk(env) && Inv(env, w, h) && HistoryStep(env, w, h, g, h2) && NewStateOk(env, w, h, g, cmd, h2, s2)
    ensures Inv(env, Committed(w, g, cmd, s2), h2)
  {
    var w2 := Committed(w, g, cmd, s2);
    forall g2 | g2 in w2.groups
      ensures GroupOk(env, h2, g2, w2.groups[g2])
    {
      if g2 == g {
        NewGroupOk(env, w, h, g, cmd, h2, s2);
      } else {
        OtherGroupOk(env, w, h, g, h2, g2);
      }
    }
    forall i | 0 <= i < env.n
      ensures TokenOk(env, w2, h2, i)
    {
      NewTokenOk(env, w, h, g, cmd, h2, s2, i);
    }
    forall g2, c | g2 in w2.groups && c in w2.groups[g2].pending
      ensures CommandOk(env, w2, h2, g2, c)
    {
      CommandStill(env, w, h, g, h2, cmd, s2, g2, c);
    }
    forall c | c in w2.clerks
      ensures ClerkOk(h2, c, w2.clerks[c])
    {
      assert ClerkOk(h, c, w.clerks[c]);
    }
    hide GroupOk, TokenOk, CommandOk, ClerkOk, ShardStep;
    forall op | op in h2.executed
      ensures Issued(w2, op)
    {
      assert Issued(w, op);
    }
  }

  lemma NewTokenOk(env: Env, w: World, h: History, g: int, cmd: Command, h2: History, s2: GroupState, i: nat)
    requires EnvOk(env) && Inv(env, w, h) && HistoryStep(env, w, h, g, h2) && NewStateOk(env, w, h, g, cmd, h2, s2)
      && i < env.n
    ensures TokenOk(env, Committed(w, g, cmd, s2), h2, i)
  {
    var w2 := Committed(w, g, cmd, s2);
    assert Extends(w, w2);
    assert ShardStep(env, w, h, g, h2, i);
    hide Inv, GroupOk, StateOk, LatestOk, SameShard;
    if h2.token[i] != h.token[i] {
      assert HeldAt(s2, h2.token[i], i);
      var k := |w.groups[g].states|;
      assert w2.groups[g].states[k] == s2;
      assert Held(env, w2, h2.token[i], i);
    }
    TokenStill(env, w, h, g, h2, w2, i);
  }
}
