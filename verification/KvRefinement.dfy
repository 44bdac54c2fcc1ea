/**
 The kvraft service is a store of one shard that one group serves from the start: its runs over Raft are
 runs of the system of committed logs, and so it is linearizable.
 */
module KvRefinement {
  import opened KvService
  import opened Service
  import opened ShardService
  import opened Linearizability
  import opened KvCluster
  import opened AbstractRun
  import KvModel
  import Time = Timeline
  import Raft = RaftCluster
  import Safety = RaftSafety
  import RaftServer
  import RaftHistory
  import RaftInvariant
  import Spec = ShardSystem
  import Inv = ShardInvariant
  import Clients = ClientView

  datatype Aux = Aux(h: RaftHistory.History, gs: seq<RaftInvariant.Shadow>, chosen: RaftServer.Log)

  /** One shard, which group 1 owns from configuration 1 on. */
  const OWNED := Config(1, [1])
  const ENV := Spec.Env(1, [NoConfig(1), OWNED])

  lemma OneShard()
    ensures Spec.EnvOk(ENV)
  {
    assert ENV.configs[0] == NoConfig(1) && ENV.configs[1] == OWNED;
  }

  // ----- The cluster -----

  /** The group takes its configuration, and then whatever the cluster has chosen. */
  ghost predicate LogIs(chosen: RaftServer.Log, log: seq<Command>) {
    && |log| == |chosen| + 1 && log[0] == Configure(OWNED)
    && forall k {:trigger log[k]} :: 1 <= k < |log| ==>
         log[k].Operation? && chosen[k - 1].command == KvCmd(log[k].op)
  }

  ghost function Commands(chosen: RaftServer.Log): seq<Command> {
    [Configure(OWNED)] + seq(|chosen|, k requires 0 <= k < |chosen| =>
      if chosen[k].command.KvCmd? then Operation(chosen[k].command.op) else NoOperation)
  }

  ghost predicate SaidIn(said: set<Cmd>, pending: set<Command>) {
    forall cmd {:trigger cmd in said} :: cmd in said ==> cmd.KvCmd? && Operation(cmd.op) in pending
  }

  ghost predicate Matched(c: Raft.Cluster, x: Aux, group: Spec.Group) {
    && Safety.Underway(c, x.h, x.gs, x.chosen) && c.start == KvData(EMPTY)
    && LogIs(x.chosen, group.log) && SaidIn(x.h.said, group.pending)
  }

  ghost predicate ServesAll(s: GroupState) {
    s.status == [Serving] && s.config == OWNED
  }

  ghost function KvOf(s: GroupState): Data {
    KvData(KvState(s.kv, s.clientSeq))
  }

  /** Folding the chosen commands goes through the group's states. */
  lemma {:induction false} ReplayIs(hist: Inv.History, group: Spec.Group, chosen: RaftServer.Log, k: nat)
    requires Spec.EnvOk(ENV) && Inv.HistoryShaped(ENV, hist) && Inv.GroupOk(ENV, hist, 1, group)
    requires LogIs(chosen, group.log) && k <= |chosen|
    ensures k + 1 < |group.states| && ServesAll(group.states[k + 1])
    ensures RaftInvariant.Replay(KvData(EMPTY), chosen[..k]) == KvOf(group.states[k + 1])
  {
    hide Inv.StateOk, Inv.LatestOk, Inv.Base;
    assert Inv.EntryOk(ENV, hist, 1, group.states[k], group.log[k], group.states[k + 1]);
    if k == 0 {
      assert group.states[0] == Start(1);
      assert group.states[1].status == [Serving];
    } else {
      ReplayIs(hist, group, chosen, k - 1);
      assert chosen[..k][..k - 1] == chosen[..k - 1];
    }
  }

  // ----- The store -----

  ghost predicate ReplyOk(aw: Spec.World, m: Reply) {
    exists k: nat :: Replied(ENV, aw, 1, k, m.client, m.seqNum, m.value)
  }

  ghost predicate Sim(w: Store, x: Aux, aw: Spec.World) {
    && aw.groups.Keys == {1} && w.clerks == aw.clerks && Matched(w.cluster, x, aw.groups[1])
    && forall m {:trigger m in w.replies} :: m in w.replies ==> ReplyOk(aw, m)
  }

  lemma RepliesStill(w: Store, aw: Spec.World, aw2: Spec.World)
    requires Grows(aw, aw2) && forall m {:trigger m in w.replies} :: m in w.replies ==> ReplyOk(aw, m)
    ensures forall m {:trigger m in w.replies} :: m in w.replies ==> ReplyOk(aw2, m)
  {
    hide Replied;
    forall m | m in w.replies
      ensures ReplyOk(aw2, m)
    {
      var k: nat :| Replied(ENV, aw, 1, k, m.client, m.seqNum, m.value);
      RepliedStill(ENV, aw, aw2, 1, k, m.client, m.seqNum, m.value);
    }
  }

  /** What a replica has applied is one of the group's states. */
  lemma ReadsState(w: Store, x: Aux, ws: seq<Spec.World>, acts: seq<Spec.Action>, s: int) returns (k: nat)
    requires Trace(ENV, ws, acts) && Sim(w, x, Now(ws)) && 0 <= s < |w.cluster.nodes|
    ensures var node := w.cluster.nodes[s];
      && k == RaftInvariant.AppliedTo(node) + 1 && Spec.ReadsAt(ENV, Now(ws), 1, k)
      && node.kv == KvOf(Spec.At(ENV, Now(ws), 1, k)) && ServesAll(Spec.At(ENV, Now(ws), 1, k))
    ensures Raft.Tolerates(w.cluster.nodes[s])
  {
    hide ReplyOk, Safety.Underway, Trace, Safety.AgreesWith, Raft.Tolerates;
    var hist := TraceInv(ENV, ws, acts);
    var c, group := w.cluster, Now(ws).groups[1];
    Safety.HandIsChosen(c, x.h, x.gs, x.chosen, s);
    Safety.IndexedTolerates(c.start, c.nodes[s], x.chosen);
    AppliedIs(c.start, c.nodes[s], x.chosen);
    assert Inv.GroupOk(ENV, hist, 1, group);
    k := RaftInvariant.AppliedTo(c.nodes[s]) + 1;
    ReplayIs(hist, group, x.chosen, k - 1);
    StateShaped(hist, group, k);
  }

  lemma AppliedIs(start: Data, node: Raft.Node, chosen: RaftServer.Log)
    requires Safety.AgreesWith(start, node, chosen)
    ensures 0 <= RaftInvariant.AppliedTo(node) <= |chosen|
    ensures node.kv == RaftInvariant.Replay(start, chosen[..RaftInvariant.AppliedTo(node)])
  {
  }

  lemma StateShaped(hist: Inv.History, group: Spec.Group, k: nat)
    requires Spec.EnvOk(ENV) && Inv.HistoryShaped(ENV, hist) && Inv.GroupOk(ENV, hist, 1, group) && k < |group.states|
    ensures Shaped(1, group.states[k])
  {
    assert Inv.Base(ENV, hist, group.states[k]);
  }

  ghost predicate Follows(a: Action, w2: Store, x2: Aux, ws: seq<Spec.World>, acts: seq<Spec.Action>,
                          ws2: seq<Spec.World>, more: seq<Spec.Action>)
  {
    && Trace(ENV, ws2, acts + more) && ws != [] && ws <= ws2
    && Sim(w2, x2, Now(ws2)) && Clients.Fits(ENV, Now(ws), EventOf(a), more)
  }

  /** A step of the service as its clerks see it. */
  function EventOf(a: Action): Clients.Event {
    match a
    case Issue(op) => Clients.Issue(op)
    case Accept(client, value) => Clients.Accept(client, value)
    case _ => Clients.Other
  }

  /** A step of one replica, of operations already handed to the group. */
  lemma RaftSim(w: Store, w2: Store, s: int, a: Raft.Action, x: Aux, ws: seq<Spec.World>, acts: seq<Spec.Action>)
    returns (x2: Aux, ws2: seq<Spec.World>, more: seq<Spec.Action>)
    requires Trace(ENV, ws, acts) && Sim(w, x, Now(ws)) && Raft.NextBy(w.cluster, w2.cluster, s, a)
    requires w2.clerks == w.clerks && forall m {:trigger m in w2.replies} :: m in w2.replies ==> ReplyOk(Now(ws), m)
    requires a.Propose? ==> a.command.KvCmd? && Operation(a.command.op) in Now(ws).groups[1].pending
    ensures Trace(ENV, ws2, acts + more) && AllCommits(more) && ws <= ws2 && ws2 != []
    ensures Sim(w2, x2, Now(ws2))
  {
    hide ReplyOk, Safety.Underway, Raft.NextBy, Raft.Tolerates;
    Safety.StepIndex(w.cluster, w2.cluster, s, a);
    var k := ReadsState(w, x, ws, acts, s);
    var group := Now(ws).groups[1];
    x2 := RaftMove(w.cluster, w2.cluster, s, a, x, group.pending);
    var log := Commands(x2.chosen);
    assert forall k {:trigger log[k]} :: 0 <= k < |group.log| ==> log[k] == group.log[k];
    ws2, more := CatchUp(ENV, ws, acts, 1, log);
    RepliesStill(w2, Now(ws), Now(ws2));
  }

  lemma RaftMove(c: Raft.Cluster, c2: Raft.Cluster, s: int, a: Raft.Action, x: Aux, pending: set<Command>)
    returns (x2: Aux)
    requires Safety.Underway(c, x.h, x.gs, x.chosen) && Raft.NextBy(c, c2, s, a) && Raft.Tolerates(c.nodes[s])
    requires SaidIn(x.h.said, pending)
    requires a.Propose? ==> a.command.KvCmd? && Operation(a.command.op) in pending
    ensures Safety.Underway(c2, x2.h, x2.gs, x2.chosen) && c2.start == c.start && x.chosen <= x2.chosen
    ensures SaidIn(x2.h.said, pending)
    ensures forall k {:trigger x2.chosen[k]} :: 0 <= k < |x2.chosen| ==>
      x2.chosen[k].command.KvCmd? && Operation(x2.chosen[k].command.op) in pending
  {
    hide Raft.NextBy, Safety.Underway, Raft.Tolerates, RaftInvariant.Extends;
    Safety.StepIndex(c, c2, s, a);
    var h2, gs2, chosen2, t := Safety.UnderwayStep(c, c2, s, a, x.h, x.gs, x.chosen);
    x2 := Aux(h2, gs2, chosen2);
    forall k | 0 <= k < |chosen2|
      ensures chosen2[k].command.KvCmd? && Operation(chosen2[k].command.op) in pending
    {
      Safety.ChosenWasSaid(c2, h2, gs2, chosen2, k);
    }
  }

  /** What the service answers is what the group's state at that place of the log answers. */
  lemma RepliesOk(w: Store, x: Aux, ws: seq<Spec.World>, acts: seq<Spec.Action>, s: int, step: Raft.Action)
    requires Trace(ENV, ws, acts) && Sim(w, x, Now(ws)) && 0 <= s < |w.cluster.nodes|
    ensures forall m {:trigger m in Replies(w.cluster.nodes[s], step)} ::
      m in Replies(w.cluster.nodes[s], step) ==> ReplyOk(Now(ws), m)
  {
    hide Safety.Underway;
    var node, group := w.cluster.nodes[s], Now(ws).groups[1];
    if Answers(node, step) {
      var k := ReadsState(w, x, ws, acts, s);
      Safety.HandIsChosen(w.cluster, x.h, x.gs, x.chosen, s);
      assert group.log[k] == Operation(node.hand.msg.command.op);
      var op := group.log[k].op;
      var value := if op.optype == Get then Value(node.kv.kv.store, op.key) else op.value;
      assert Replied(ENV, Now(ws), 1, k, op.clientId, op.seqNum, value);
    }
  }

  lemma ServeSim(w: Store, a: Action, w2: Store, x: Aux, ws: seq<Spec.World>, acts: seq<Spec.Action>)
    returns (x2: Aux, ws2: seq<Spec.World>, more: seq<Spec.Action>)
    requires Trace(ENV, ws, acts) && Sim(w, x, Now(ws)) && Next(w, a, w2) && (a.Serve? || a.Peer?)
    ensures Follows(a, w2, x2, ws, acts, ws2, more)
  {
    hide Safety.Underway, ReplyOk, Raft.NextBy, Replies;
    if a.Peer? {
      RepliesOk(w, x, ws, acts, a.s, a.a);
      x2, ws2, more := RaftSim(w, w2, a.s, a.a, x, ws, acts);
    } else {
      var act := Spec.Request(1, 1, a.op);
      Safety.StepIndex(w.cluster, w2.cluster, a.s, Raft.Propose(KvCmd(a.op)));
      OwnsShard(w, x, ws, acts, a.op);
      var ws1, acts1 := Extend(ENV, ws, acts, act);
      RepliesStill(w, Now(ws), Now(ws1));
      hide Trace;
      x2, ws2, more := RaftSim(w, w2, a.s, Raft.Propose(KvCmd(a.op)), x, ws1, acts1);
      assert acts1 + more == acts + ([act] + more);
      more := [act] + more;
    }
  }

  lemma OwnsShard(w: Store, x: Aux, ws: seq<Spec.World>, acts: seq<Spec.Action>, op: Op)
    requires Trace(ENV, ws, acts) && Sim(w, x, Now(ws)) && Issued(w, op)
    ensures Spec.Enabled(ENV, Now(ws), Spec.Request(1, 1, op))
  {
    hide Safety.Underway, ReplyOk;
    var hist := TraceInv(ENV, ws, acts);
    assert Inv.GroupOk(ENV, hist, 1, Now(ws).groups[1]);
    ReplayIs(hist, Now(ws).groups[1], x.chosen, 0);
    StateShaped(hist, Now(ws).groups[1], 1);
  }

  lemma ClerkSim(w: Store, a: Action, w2: Store, x: Aux, ws: seq<Spec.World>, acts: seq<Spec.Action>)
    returns (ws2: seq<Spec.World>, more: seq<Spec.Action>)
    requires Trace(ENV, ws, acts) && Sim(w, x, Now(ws)) && Next(w, a, w2) && (a.Issue? || a.Accept?)
    ensures Follows(a, w2, x, ws, acts, ws2, more)
  {
    hide Safety.Underway, Replied, Clients.Accepts;
    if a.Issue? {
      more := [Spec.Issue(a.op)];
    } else {
      var seqNum := w.clerks[a.client].answered + 1;
      assert ReplyOk(Now(ws), Reply(a.client, seqNum, a.value));
      var k: nat :| Replied(ENV, Now(ws), 1, k, a.client, seqNum, a.value);
      AnswerReady(ENV, ws, acts, 1, k, a.client, a.value);
      more := [Spec.Answer(a.client, 1, k)];
    }
    hide ReplyOk;
    var acts2;
    ws2, acts2 := Extend(ENV, ws, acts, more[0]);
    RepliesStill(w2, Now(ws), Now(ws2));
  }

  // ----- Whole runs -----

  /** The group starts by taking the configuration that gives it the shard. */
  lemma InitSim(w: Store) returns (x: Aux, ws: seq<Spec.World>, acts: seq<Spec.Action>)
    requires Init(w)
    ensures Trace(ENV, ws, acts) && Sim(w, x, Now(ws))
    ensures forall u {:trigger acts[u]} :: 0 <= u < |acts| ==> !acts[u].Issue? && !acts[u].Answer?
  {
    hide Safety.Underway, Raft.Init;
    OneShard();
    x := Aux(RaftHistory.NoHistory(w.cluster.start), Safety.NoShadows(w.cluster), []);
    Safety.UnderwayInit(w.cluster);
    var aw := Spec.World(map[1 := Spec.Group([], [Start(1)], {})], map[]);
    ws, acts := Extend(ENV, [aw], [], Spec.Fetch(1, 0));
    assert Configure(OWNED) in Now(ws).groups[1].pending;
    ws, acts := Extend(ENV, ws, acts, Spec.Commit(1, Configure(OWNED)));
  }

  ghost function Events(acts: seq<Action>): seq<Clients.Event> {
    seq(|acts|, k requires 0 <= k < |acts| => EventOf(acts[k]))
  }

  ghost function ClerksIn(ws: seq<Store>): seq<Clients.Clerks> {
    seq(|ws|, k requires 0 <= k < |ws| => ws[k].clerks)
  }

  lemma {:induction false} Refines(ws: seq<Store>, acts: seq<Action>)
    returns (x: Aux, aws: seq<Spec.World>, aacts: seq<Spec.Action>, at: seq<nat>)
    requires Run(ws, acts)
    ensures Clients.Tracks(ENV, Events(acts), ClerksIn(ws), aws, aacts, at) && aws != []
    ensures Sim(ws[|acts|], x, Now(aws))
  {
    hide Sim, Init;
    var n := |acts|;
    if n == 0 {
      x, aws, aacts := InitSim(ws[0]);
      at := [|aacts|];
      SimClerks(ws[0], x, Now(aws));
    } else {
      RunBefore(ws, acts);
      x, aws, aacts, at := Refines(ws[..n], acts[..n - 1]);
      var a, w, w2, aws2, more := acts[n - 1], ws[n - 1], ws[n], [], [];
      assert Next(w, a, w2);
      hide Next, Clients.Fits;
      if a.Issue? || a.Accept? {
        aws2, more := ClerkSim(w, a, w2, x, aws, aacts);
      } else {
        x, aws2, more := ServeSim(w, a, w2, x, aws, aacts);
      }
      SimClerks(w2, x, Now(aws2));
      var events, clerks := Events(acts[..n - 1]), ClerksIn(ws[..n]);
      assert Events(acts) == events + [EventOf(a)] && ClerksIn(ws) == clerks + [w2.clerks];
      Clients.TracksMore(ENV, events, clerks, aws, aacts, at, EventOf(a), w2.clerks, aws2, more);
      aws, aacts, at := aws2, aacts + more, at + [|aacts + more|];
    }
  }

  lemma SimClerks(w: Store, x: Aux, aw: Spec.World)
    requires Sim(w, x, aw)
    ensures w.clerks == aw.clerks
  {
  }

  lemma RunBefore(ws: seq<Store>, acts: seq<Action>)
    requires Run(ws, acts) && acts != []
    ensures Run(ws[..|acts|], acts[..|acts| - 1])
  {
    hide Next, Init;
    var n := |acts|;
    forall t, u | 0 <= t && u == t + 1 <= n - 1
      ensures Next(ws[..n][t], acts[..n - 1][t], ws[..n][u])
    {
      assert Next(ws[t], acts[t], ws[u]);
    }
  }

  /**
   The kvraft service is linearizable: in every run, with lost, repeated and reordered messages, crashes and
   snapshots, the replies its clerks accepted are explained by one store.
   */
  lemma KvIsLinearizable(ws: seq<Store>, acts: seq<Action>) returns (h: KvModel.History, ops: seq<Op>)
    requires Run(ws, acts)
    ensures Time.Timed(h) && Linearizable(KvModel.STORE_MODEL, Time.ProblemOfHistory(h))
    ensures |ops| == |h| && forall i {:trigger h[i]} :: 0 <= i < |h| ==>
      Clients.Records(Events(acts), ClerksIn(ws), h[i], ops[i])
    ensures forall i, j {:trigger ops[i], ops[j]} :: 0 <= i < j < |ops| ==> ops[i] != ops[j]
    ensures forall r {:trigger acts[r]} :: 0 <= r < |acts| && acts[r].Accept? ==>
      exists i {:trigger h[i]} :: 0 <= i < |h| && h[i].ret == r
  {
    hide Sim, Clients.Tracks, Clients.Records, Linearizable, Time.ProblemOfHistory;
    var x, aws, aacts, at := Refines(ws, acts);
    h, ops := Clients.OneStoreSeen(ENV, Events(acts), ClerksIn(ws), aws, aacts, at);
    forall r | 0 <= r < |acts| && acts[r].Accept?
      ensures exists i :: 0 <= i < |h| && h[i].ret == r
    {
      assert Events(acts)[r].Accept?;
    }
  }
}
