/** The promises of the sharded store, for every run. */
module ShardTheorems {
  import opened KvService
  import opened ShardService
  import opened ShardSystem
  import opened ShardInvariant
  import opened ShardFrame
  import opened ShardSteps
  import opened ShardSafety
  import Controller = ConfigHistory

  /** A run, at one of its moments. */
  ghost predicate InRun(env: Env, ws: seq<World>, acts: seq<Action>, t: nat) {
    EnvOk(env) && Run(env, ws, acts) && t < |ws|
  }

  /** The step commits an operation at a group that serves its shard. */
  ghost predicate Applies(env: Env, w: World, a: Action) {
    a.Commit? && a.cmd.Operation? && CanApply(env, w, a) && Serves(env.n, Last(w.groups[a.g]), a.cmd.op)
  }

  /** The step makes an operation take effect. */
  ghost predicate Effective(env: Env, w: World, a: Action) {
    a.Commit? && a.cmd.Operation? && CanApply(env, w, a) && Executes(env.n, Last(w.groups[a.g]), a.cmd.op)
  }

  /** The one store: what the effective operations, in the order of the run, make of an empty one. */
  ghost function StoreAt(env: Env, ws: seq<World>, acts: seq<Action>, t: nat): map<string, string>
    requires t < |ws| <= |acts| + 1
  {
    if t == 0 then map[]
    else
      var before := StoreAt(env, ws, acts, t - 1);
      if Effective(env, ws[t - 1], acts[t - 1]) then Effect(before, acts[t - 1].cmd.op) else before
  }

  /** The operation took effect before moment t. */
  ghost predicate TookEffect(env: Env, ws: seq<World>, acts: seq<Action>, t: nat, op: Op)
    requires t < |ws| <= |acts| + 1
  {
    exists u {:trigger acts[u]} :: 0 <= u < t && Effective(env, ws[u], acts[u]) && acts[u].cmd.op == op
  }

  lemma {:induction false} HistoryIs(env: Env, ws: seq<World>, acts: seq<Action>, t: nat, op: Op)
    requires InRun(env, ws, acts, t)
    ensures HistoryAt(env, ws, acts, t).store == StoreAt(env, ws, acts, t)
    ensures op in HistoryAt(env, ws, acts, t).executed <==> TookEffect(env, ws, acts, t, op)
  {
    if t > 0 {
      HistoryIs(env, ws, acts, t - 1, op);
      assert Next(env, ws[t - 1], acts[t - 1], ws[t]);
      hide Enabled, Step, Effect;
      assert TookEffect(env, ws, acts, t, op) <==>
        TookEffect(env, ws, acts, t - 1, op) || (Effective(env, ws[t - 1], acts[t - 1]) && acts[t - 1].cmd.op == op);
    }
  }

  // ----- One store -----

  /**
   An operation that is applied reads and writes the one store: before and after, its group has the store's value of
   every key of the shard.
   */
  lemma ActsOnOneStore(env: Env, ws: seq<World>, acts: seq<Action>, t: nat, key: string)
    requires InRun(env, ws, acts, t) && t < |acts| && Applies(env, ws[t], acts[t])
    requires KeyShard(env.n, key) == KeyShard(env.n, acts[t].cmd.op.key)
    ensures Value(Last(ws[t].groups[acts[t].g]).kv, key) == Value(StoreAt(env, ws, acts, t), key)
    ensures acts[t].g in ws[t + 1].groups && ws[t + 1].groups[acts[t].g].states != []
    ensures Value(Last(ws[t + 1].groups[acts[t].g]).kv, key) == Value(StoreAt(env, ws, acts, t + 1), key)
  {
    var g, i := acts[t].g, KeyShard(env.n, key);
    assert Next(env, ws[t], acts[t], ws[t + 1]);
    var h := RunIsOk(env, ws, acts, t);
    var h2 := RunIsOk(env, ws, acts, t + 1);
    ServedIsStore(env, ws[t], h, g, i, key);
    ServedIsStore(env, ws[t + 1], h2, g, i, key);
    HistoryIs(env, ws, acts, t, acts[t].cmd.op);
    HistoryIs(env, ws, acts, t + 1, acts[t].cmd.op);
  }

  lemma ServedIsStore(env: Env, w: World, h: History, g: int, i: nat, key: string)
    requires EnvOk(env) && Inv(env, w, h) && g in w.groups && w.groups[g].states != [] && i == KeyShard(env.n, key)
    requires Shaped(env.n, Last(w.groups[g])) && Last(w.groups[g]).status[i] == Serving
    ensures Value(Last(w.groups[g]).kv, key) == Value(h.store, key)
  {
    InGroup(env, w, h, g, |w.groups[g].states| - 1, i);
    hide Inv, GroupOk, StateOk, Part;
    SameValue(env.n, Last(w.groups[g]).kv, h.store, key);
  }

  /** Everything a group serves, at any moment, is the one store's. */
  lemma ServedAlways(env: Env, ws: seq<World>, acts: seq<Action>, t: nat, g: int, key: string)
    requires InRun(env, ws, acts, t) && g in ws[t].groups && ws[t].groups[g].states != []
      && Shaped(env.n, Last(ws[t].groups[g]))
    requires Last(ws[t].groups[g]).status[KeyShard(env.n, key)] == Serving
    ensures Value(Last(ws[t].groups[g]).kv, key) == Value(StoreAt(env, ws, acts, t), key)
  {
    var h := RunIsOk(env, ws, acts, t);
    ServedIsStore(env, ws[t], h, g, KeyShard(env.n, key), key);
    HistoryIs(env, ws, acts, t, NO_OP);
  }

  // ----- Exactly once -----

  /** No two steps make the same operation of a client take effect. */
  lemma AtMostOnce(env: Env, ws: seq<World>, acts: seq<Action>, t: nat, u: nat)
    requires InRun(env, ws, acts, t) && t < u < |acts| && Effective(env, ws[t], acts[t])
      && Effective(env, ws[u], acts[u])
    ensures !(acts[t].cmd.op.clientId == acts[u].cmd.op.clientId && acts[t].cmd.op.seqNum == acts[u].cmd.op.seqNum)
  {
    hide Inv, Enabled, Step;
    var op, op2 := acts[t].cmd.op, acts[u].cmd.op;
    var h := RunIsOk(env, ws, acts, u);
    HistoryIs(env, ws, acts, u, op);
    assert TookEffect(env, ws, acts, u, op);
    assert Next(env, ws[u], acts[u], ws[u + 1]);
    Pending(env, ws[u], acts[u]);
    NotDoneBefore(env, ws[u], h, acts[u].g, op2);
    OperationIssued(env, ws[u], h, acts[u].g, op2);
    AllIssued(env, ws[u], h);
    assert Issued(ws[u], op);
  }

  lemma Pending(env: Env, w: World, a: Action)
    requires EnvOk(env) && Enabled(env, w, a) && a.Commit?
    ensures a.g in w.groups && a.cmd in w.groups[a.g].pending
  {
  }

  lemma OperationIssued(env: Env, w: World, h: History, g: int, op: Op)
    requires Commits(env, w, h, g, Operation(op))
    ensures Issued(w, op)
  {
    assert CommandOk(env, w, h, g, Operation(op));
  }

  /** An operation that is applied but skipped took effect before. */
  lemma NeverWronglySkipped(env: Env, ws: seq<World>, acts: seq<Action>, t: nat)
    requires InRun(env, ws, acts, t) && t < |acts| && Applies(env, ws[t], acts[t]) && !Effective(env, ws[t], acts[t])
    ensures TookEffect(env, ws, acts, t, acts[t].cmd.op)
  {
    var h := RunIsOk(env, ws, acts, t);
    assert Next(env, ws[t], acts[t], ws[t + 1]);
    DoneBefore(env, ws[t], h, acts[t].g, acts[t].cmd.op);
    HistoryIs(env, ws, acts, t, acts[t].cmd.op);
  }

  /** What a clerk was answered took effect. */
  lemma AnsweredTookEffect(env: Env, ws: seq<World>, acts: seq<Action>, t: nat, client: int, k: nat)
    requires InRun(env, ws, acts, t) && client in ws[t].clerks && k < ws[t].clerks[client].answered
    ensures k < |ws[t].clerks[client].ops| && TookEffect(env, ws, acts, t, ws[t].clerks[client].ops[k])
  {
    var h := RunIsOk(env, ws, acts, t);
    assert ClerkOk(h, client, ws[t].clerks[client]);
    HistoryIs(env, ws, acts, t, ws[t].clerks[client].ops[k]);
  }

  // ----- One server, safe deletion -----

  /** At most one group has a shard served. */
  lemma AtMostOneServing(env: Env, ws: seq<World>, acts: seq<Action>, t: nat, i: nat, g: int, g2: int)
    requires InRun(env, ws, acts, t) && i < env.n && g in ws[t].groups && g2 in ws[t].groups
    requires ws[t].groups[g].states != [] && ws[t].groups[g2].states != []
    requires HeldAt(Last(ws[t].groups[g]), Last(ws[t].groups[g]).config.num, i)
      && HeldAt(Last(ws[t].groups[g2]), Last(ws[t].groups[g2]).config.num, i)
    ensures g == g2
  {
    var h := RunIsOk(env, ws, acts, t);
    InGroup(env, ws[t], h, g, |ws[t].groups[g].states| - 1, i);
    InGroup(env, ws[t], h, g2, |ws[t].groups[g2].states| - 1, i);
    hide Inv, GroupOk, Mirrors, Base;
  }

  /** The group's entry j is a merge of the shard in that configuration, and it takes. */
  ghost predicate MergesAt(env: Env, group: Group, j: nat, c: nat, i: nat) {
    && j < |group.log| && j < |group.states| && i < env.n && Shaped(env.n, group.states[j])
    && group.log[j].Merge? && group.log[j].num == c && group.log[j].shard == i
    && TakesPart(env.n, group.states[j], c, i)
  }

  lemma {:induction false} ArrivedByMerge(env: Env, h: History, g: int, group: Group, k: nat, c: nat, i: nat)
    returns (j: nat)
    requires EnvOk(env) && HistoryShaped(env, h) && GroupOk(env, h, g, group) && k < |group.states| && i < env.n
    requires 2 <= c < |env.configs| && Owner(env, c, i) == g != Owner(env, c - 1, i)
    requires i < |group.states[k].status| && Arrived(group.states[k], c, i)
    ensures j < k && MergesAt(env, group, j, c, i)
  {
    hide LatestOk, TokenSeen, Sound;
    assert k > 0;
    var s, s2 := group.states[k - 1], group.states[k];
    assert EntryOk(env, h, g, s, group.log[k - 1], s2);
    assert StateOk(env, h, g, s, i) && Base(env, h, s2);
    if Arrived(s, c, i) {
      j := ArrivedByMerge(env, h, g, group, k - 1, c, i);
    } else {
      j := k - 1;
    }
  }

  /** An owner that confirms a shard it did not have before has committed its merge. */
  lemma ConfirmedMeansMerged(env: Env, ws: seq<World>, acts: seq<Action>, t: nat, g: int, k: nat, c: nat, i: nat)
    returns (j: nat)
    requires InRun(env, ws, acts, t) && g in ws[t].groups && k < |ws[t].groups[g].states| && i < env.n
    requires 2 <= c < |env.configs| && Owner(env, c, i) == g != Owner(env, c - 1, i)
    requires i < |ws[t].groups[g].states[k].status| && Arrived(ws[t].groups[g].states[k], c, i)
    ensures j < k && MergesAt(env, ws[t].groups[g], j, c, i)
  {
    var h := RunIsOk(env, ws, acts, t);
    assert GroupOk(env, h, g, ws[t].groups[g]);
    j := ArrivedByMerge(env, h, g, ws[t].groups[g], k, c, i);
  }

  lemma DroppedIsHeld(env: Env, ws: seq<World>, acts: seq<Action>, t: nat)
    requires InRun(env, ws, acts, t) && t < |acts| && acts[t].Commit? && acts[t].cmd.Confirm?
      && CanApply(env, ws[t], acts[t])
    requires DropsPart(env.n, Last(ws[t].groups[acts[t].g]), acts[t].cmd.num, acts[t].cmd.shard)
    ensures acts[t].cmd.num < |env.configs| && Held(env, ws[t], acts[t].cmd.num, acts[t].cmd.shard)
    ensures 2 <= acts[t].cmd.num && Owner(env, acts[t].cmd.num, acts[t].cmd.shard) != acts[t].g
    ensures Owner(env, acts[t].cmd.num - 1, acts[t].cmd.shard) == acts[t].g
  {
    var h := RunIsOk(env, ws, acts, t);
    var g, c, i := acts[t].g, acts[t].cmd.num, acts[t].cmd.shard;
    assert Next(env, ws[t], acts[t], ws[t + 1]);
    Facts(env, ws[t], h, g, acts[t].cmd);
    assert StateOk(env, h, g, Last(ws[t].groups[g]), i);
    assert TokenOk(env, ws[t], h, i);
    assert Held(env, ws[t], c, i);
  }

  /** A group deletes its copy only after the new owner committed the merge in that configuration. */
  lemma DeletedAfterMerge(env: Env, ws: seq<World>, acts: seq<Action>, t: nat) returns (j: nat)
    requires InRun(env, ws, acts, t) && t < |acts| && acts[t].Commit? && acts[t].cmd.Confirm?
      && CanApply(env, ws[t], acts[t])
    requires DropsPart(env.n, Last(ws[t].groups[acts[t].g]), acts[t].cmd.num, acts[t].cmd.shard)
    ensures acts[t].cmd.num < |env.configs| && Held(env, ws[t], acts[t].cmd.num, acts[t].cmd.shard)
    ensures var g := Owner(env, acts[t].cmd.num, acts[t].cmd.shard);
      g != acts[t].g && g in ws[t].groups && MergesAt(env, ws[t].groups[g], j, acts[t].cmd.num, acts[t].cmd.shard)
  {
    hide Run, MergesAt;
    DroppedIsHeld(env, ws, acts, t);
    var c, i := acts[t].cmd.num, acts[t].cmd.shard;
    var g2 := Owner(env, c, i);
    var k :| 0 <= k < |ws[t].groups[g2].states| && HeldAt(ws[t].groups[g2].states[k], c, i);
    j := ConfirmedMeansMerged(env, ws, acts, t, g2, k, c, i);
  }

  /**
   A confirmation is safe when the group asked owns the shard in the configuration asked about, and it does when
   the number was read with the list of shards: the owner has then had the shard served.
   */
  lemma ConfirmedByOwner(env: Env, ws: seq<World>, acts: seq<Action>, t: nat, h: int, listed: nat, at: nat, now: nat,
                         g: int, theirs: nat, i: nat)
    requires InRun(env, ws, acts, t) && Checks(env, ws[t], h, listed, at, now, g, theirs, i)
    ensures At(env, ws[t], h, at).config.num == At(env, ws[t], h, listed).config.num ==>
      At(env, ws[t], h, at).config.shards[i] == g
    ensures var c := At(env, ws[t], h, at).config.num;
      At(env, ws[t], h, at).config.shards[i] == g ==> c < |env.configs| && Held(env, ws[t], c, i)
  {
    var hist := RunIsOk(env, ws, acts, t);
    InGroup(env, ws[t], hist, h, at, i);
    InGroup(env, ws[t], hist, h, listed, i);
    if At(env, ws[t], h, at).config.shards[i] == g {
      CheckOk(env, ws[t], hist, h, listed, at, now, g, theirs, i);
      assert TokenOk(env, ws[t], hist, i) && g != 0;
    }
  }

  /** A group keeps no key of a shard that it neither serves nor is still asked for. */
  lemma NothingLeftBehind(env: Env, ws: seq<World>, acts: seq<Action>, t: nat, g: int, key: string)
    requires InRun(env, ws, acts, t) && g in ws[t].groups && ws[t].groups[g].states != []
    requires key in Last(ws[t].groups[g]).kv
    ensures Shaped(env.n, Last(ws[t].groups[g]))
    ensures Last(ws[t].groups[g]).status[KeyShard(env.n, key)] in {Serving, BePulled}
  {
    var h := RunIsOk(env, ws, acts, t);
    var i := KeyShard(env.n, key);
    InGroup(env, ws[t], h, g, |ws[t].groups[g].states| - 1, i);
    hide Inv, GroupOk;
    assert Last(ws[t].groups[g]).status[i] !in {Serving, BePulled} ==> key !in Part(env.n, Last(ws[t].groups[g]).kv, i);
  }

  // ----- Configurations in order -----

  /**
   Whatever changes a group's configuration is its next one, taken when no shard is on its way; the first is number 1.
   */
  lemma ConfigsInOrder(env: Env, ws: seq<World>, acts: seq<Action>, t: nat, g: int, k: nat)
    requires InRun(env, ws, acts, t) && g in ws[t].groups && k + 1 < |ws[t].groups[g].states|
    ensures var s, s2 := ws[t].groups[g].states[k], ws[t].groups[g].states[k + 1];
      s2.config != s.config ==>
        && s2.config.num == s.config.num + 1 && s2.prev == s.config && (s.config.num == 0 || Ready(s))
        && s2.config.num < |env.configs| && s2.config == env.configs[s2.config.num]
  {
    var h := RunIsOk(env, ws, acts, t);
    InGroup(env, ws[t], h, g, k + 1, 0);
    var group := ws[t].groups[g];
    assert EntryOk(env, h, g, group.states[k], group.log[k], group.states[k + 1]);
  }

  // ----- Delivered twice -----

  /** Within one configuration a shard comes in or goes out at most once. */
  lemma {:induction false} StatusOnward(env: Env, h: History, g: int, group: Group, j: nat, k: nat, i: nat)
    requires EnvOk(env) && HistoryShaped(env, h) && GroupOk(env, h, g, group) && j <= k < |group.states| && i < env.n
    requires group.states[k].config.num == group.states[j].config.num
    ensures Shaped(env.n, group.states[j]) && Shaped(env.n, group.states[k])
    ensures var a, b := group.states[j].status[i], group.states[k].status[i];
      b == a || (a == Pulling && b == Serving) || (a == BePulled && b == NoServing)
    decreases k - j
  {
    assert Base(env, h, group.states[j]) && Base(env, h, group.states[k]);
    if j < k {
      ConfigsGrow(env, h, g, group, j, k - 1);
      ConfigsGrow(env, h, g, group, k - 1, k);
      StatusOnward(env, h, g, group, j, k - 1, i);
      assert EntryOk(env, h, g, group.states[k - 1], group.log[k - 1], group.states[k]);
    }
  }

  /** A merge or a confirmation delivered again, after any number of later commands, changes nothing. */
  lemma SecondDeliveryIsHarmless(env: Env, ws: seq<World>, acts: seq<Action>, t: nat, g: int, j: nat, k: nat)
    requires InRun(env, ws, acts, t) && g in ws[t].groups && j < |ws[t].groups[g].log|
      && j < k < |ws[t].groups[g].states|
    requires ws[t].groups[g].log[j].Merge? || ws[t].groups[g].log[j].Confirm?
    ensures var s, cmd := ws[t].groups[g].states[k], ws[t].groups[g].log[j];
      Shaped(env.n, s) && InShape(env.n, cmd) && ApplyCommand(env.n, g, s, cmd) == s
  {
    var h := RunIsOk(env, ws, acts, t);
    assert GroupOk(env, h, g, ws[t].groups[g]);
    HarmlessAgain(env, h, g, ws[t].groups[g], j, k);
  }

  lemma HarmlessAgain(env: Env, h: History, g: int, group: Group, j: nat, k: nat)
    requires EnvOk(env) && HistoryShaped(env, h) && GroupOk(env, h, g, group) && j < |group.log|
      && j < k < |group.states|
    requires group.log[j].Merge? || group.log[j].Confirm?
    ensures var s, cmd := group.states[k], group.log[j];
      Shaped(env.n, s) && InShape(env.n, cmd) && ApplyCommand(env.n, g, s, cmd) == s
  {
    hide StateOk, LatestOk, Sound;
    assert EntryOk(env, h, g, group.states[j], group.log[j], group.states[j + 1]);
    var cmd, s := group.log[j], group.states[k];
    ConfigsGrow(env, h, g, group, j, j + 1);
    ConfigsGrow(env, h, g, group, j + 1, k);
    assert Base(env, h, s) && Base(env, h, group.states[j + 1]);
    if s.config.num == cmd.num {
      StatusOnward(env, h, g, group, j + 1, k, cmd.shard);
    }
    hide GroupOk, Base;
  }

  // ----- No index out of range -----

  /** Whatever Raft commits next fits the group: its shard exists and its configuration has every shard. */
  lemma NeverOutOfRange(env: Env, ws: seq<World>, acts: seq<Action>, t: nat, a: Action)
    requires InRun(env, ws, acts, t) && Enabled(env, ws[t], a)
    ensures CanApply(env, ws[t], a)
  {
    var h := RunIsOk(env, ws, acts, t);
    StepKeeps(env, ws[t], h, a);
  }

  // ----- Where the configurations come from -----

  /** The configurations after the controller applied some operations, as the groups fetch them. */
  ghost function Fetched(n: nat, ops: seq<Controller.Op>): Env
    requires Controller.AllSensible(n, ops)
  {
    var r := Controller.History(n, ops);
    Controller.HistoryIsOk(n, ops);
    Env(n, seq(|r|, c requires 0 <= c < |r| => Numbered(r[c])))
  }

  ghost function Numbered(config: Controller.Config): Config
    requires config.num >= 0
  {
    Config(config.num, config.shards)
  }

  /** Whatever operations the controller applied, its configurations are what the groups rely on. */
  lemma ControllerIsEnv(n: nat, ops: seq<Controller.Op>)
    requires n > 0 && Controller.AllSensible(n, ops)
    ensures EnvOk(Fetched(n, ops))
  {
    Controller.HistoryIsOk(n, ops);
    hide Controller.History;
  }
}
