/**
 Everything together: the sharded store and the controller, each group and the controller a Raft cluster. The
 groups know the configurations from what replicas of the controller had applied when they were asked.
 */
module WholeSystem {
  import opened KvService
  import opened Service
  import opened ShardService
  import opened Linearizability
  import Controller = ConfigHistory
  import Store = StoreCluster
  import Refinement = StoreRefinement
  import Promises = ShardTheorems
  import Clients = ClientView
  import KvModel
  import Time = Timeline
  import Raft = RaftCluster
  import Safety = RaftSafety
  import RaftServer
  import RaftHistory
  import RaftInvariant
  import Spec = ShardSystem

  /** The configurations a replica of the controller has answered with, as far as the groups look at them. */
  type View = seq<Config>

  datatype System = System(store: Store.Store, ctrl: Raft.Cluster, views: set<View>)

  /** A replica of the controller steps, or answers with what it has applied; or the store steps, having an answer. */
  datatype Action =
    | Control(s: int, a: Raft.Action)
    | Publish(s: int)
    | Act(view: View, step: Store.Action)

  ghost function Shown(configs: seq<Controller.Config>): View {
    seq(|configs|, c requires 0 <= c < |configs| =>
      Config(if configs[c].num < 0 then 0 else configs[c].num, configs[c].shards))
  }

  ghost predicate Next(n: nat, w: System, a: Action, w2: System) {
    match a
    // the controller takes sensible operations, and no snapshots
    case Control(s, step) =>
      && Raft.NextBy(w.ctrl, w2.ctrl, s, step) && (step.Handle? ==> !step.takeSnapshot)
      && (step.Propose? ==> step.command.CtrlCmd? && Controller.Sensible(n, step.command.ctrlOp))
      && w2 == w.(ctrl := w2.ctrl)
    case Publish(s) =>
      && 0 <= s < |w.ctrl.nodes| && w.ctrl.nodes[s].kv.CtrlData?
      && w2 == w.(views := w.views + {Shown(w.ctrl.nodes[s].kv.configs)})
    case Act(view, step) =>
      && view in w.views && Store.Next(Spec.Env(n, view), w.store, step, w2.store)
      && w2 == w.(store := w2.store)
  }

  /** Fresh clusters, and every group starts from configuration 0. */
  ghost predicate Init(n: nat, w: System) {
    && Store.Init(Spec.Env(n, [NoConfig(n)]), w.store) && w.views == {[NoConfig(n)]}
    && Raft.Init(w.ctrl) && w.ctrl.start == CtrlData(Controller.Initial(n))
  }

  ghost predicate Run(n: nat, ws: seq<System>, acts: seq<Action>) {
    && |ws| == |acts| + 1 && Init(n, ws[0])
    && forall t, u {:trigger ws[t], ws[u]} :: 0 <= t && u == t + 1 <= |acts| ==> Next(n, ws[t], acts[t], ws[u])
  }

  // ----- The controller -----

  datatype Aux = Aux(h: RaftHistory.History, gs: seq<RaftInvariant.Shadow>, chosen: RaftServer.Log)

  ghost function OpsOf(chosen: RaftServer.Log): seq<Controller.Op> {
    seq(|chosen|, k requires 0 <= k < |chosen| =>
      if chosen[k].command.CtrlCmd? then chosen[k].command.ctrlOp else Controller.Op(Controller.Query(0), 0, 0))
  }

  ghost predicate SaidOk(n: nat, said: set<Cmd>) {
    forall cmd {:trigger cmd in said} :: cmd in said ==> cmd.CtrlCmd? && Controller.Sensible(n, cmd.ctrlOp)
  }

  ghost predicate ChosenOk(n: nat, chosen: RaftServer.Log) {
    forall k {:trigger chosen[k]} :: 0 <= k < |chosen| ==>
      chosen[k].command.CtrlCmd? && Controller.Sensible(n, chosen[k].command.ctrlOp)
  }

  /** Folding the chosen operations gives the controller's configurations. */
  lemma {:induction false} ReplayIs(n: nat, chosen: RaftServer.Log)
    requires ChosenOk(n, chosen)
    ensures Controller.AllSensible(n, OpsOf(chosen))
    ensures RaftInvariant.Replay(CtrlData(Controller.Initial(n)), chosen) ==
      CtrlData(Controller.History(n, OpsOf(chosen)))
  {
    hide Controller.Apply;
    if chosen != [] {
      var k := |chosen| - 1;
      ReplayIs(n, chosen[..k]);
      assert OpsOf(chosen)[..k] == OpsOf(chosen[..k]);
    }
  }

  /** The configurations the controller has come to, as the groups see them. */
  ghost function Settled(n: nat, chosen: RaftServer.Log): View
    requires ChosenOk(n, chosen)
  {
    ReplayIs(n, chosen);
    Shown(Controller.History(n, OpsOf(chosen)))
  }

  lemma SettledGrows(n: nat, chosen: RaftServer.Log, chosen2: RaftServer.Log)
    requires ChosenOk(n, chosen2) && chosen <= chosen2
    ensures ChosenOk(n, chosen) && Settled(n, chosen) <= Settled(n, chosen2)
  {
    hide Controller.History, Controller.Sensible, RaftInvariant.Replay, OpsOf, Shown;
    assert forall k {:trigger chosen[k]} :: 0 <= k < |chosen| ==> chosen[k] == chosen2[k];
    ReplayIs(n, chosen);
    ReplayIs(n, chosen2);
    var more := OpsSplit(chosen, chosen2);
    Controller.HistoryGrows(n, OpsOf(chosen), more);
    ShownGrows(Controller.History(n, OpsOf(chosen)), Controller.History(n, OpsOf(chosen2)));
  }

  lemma OpsSplit(chosen: RaftServer.Log, chosen2: RaftServer.Log) returns (more: seq<Controller.Op>)
    requires chosen <= chosen2
    ensures OpsOf(chosen2) == OpsOf(chosen) + more
  {
    more := OpsOf(chosen2)[|chosen|..];
  }

  lemma ShownGrows(configs: seq<Controller.Config>, configs2: seq<Controller.Config>)
    requires configs <= configs2
    ensures Shown(configs) <= Shown(configs2)
  {
  }

  lemma SettledIsEnv(n: nat, chosen: RaftServer.Log)
    requires ChosenOk(n, chosen) && n > 0
    ensures Spec.EnvOk(Spec.Env(n, Settled(n, chosen)))
  {
    ReplayIs(n, chosen);
    var ops := OpsOf(chosen);
    Promises.ControllerIsEnv(n, ops);
    Controller.HistoryIsOk(n, ops);
    hide Controller.History, Spec.EnvOk;
    assert Promises.Fetched(n, ops).configs == Settled(n, chosen);
  }

  /** The invariant of the controller's cluster, and every answer given is the beginning of what it has settled. */
  ghost predicate CtrlOk(n: nat, w: System, x: Aux) {
    && Safety.Underway(w.ctrl, x.h, x.gs, x.chosen) && w.ctrl.start == CtrlData(Controller.Initial(n))
    && SaidOk(n, x.h.said) && ChosenOk(n, x.chosen)
    && forall view {:trigger view in w.views} :: view in w.views ==> view <= Settled(n, x.chosen)
  }

  lemma CtrlInit(n: nat, w: System) returns (x: Aux)
    requires Init(n, w)
    ensures CtrlOk(n, w, x)
  {
    hide Safety.Underway, Raft.Init, Store.Init;
    x := Aux(RaftHistory.NoHistory(w.ctrl.start), Safety.NoShadows(w.ctrl), []);
    Safety.UnderwayInit(w.ctrl);
    assert Settled(n, []) == [NoConfig(n)];
  }

  lemma SaidChosen(n: nat, c: Raft.Cluster, x: Aux)
    requires Safety.Underway(c, x.h, x.gs, x.chosen) && SaidOk(n, x.h.said)
    ensures ChosenOk(n, x.chosen)
  {
    hide Safety.Underway;
    forall k | 0 <= k < |x.chosen|
      ensures x.chosen[k].command.CtrlCmd? && Controller.Sensible(n, x.chosen[k].command.ctrlOp)
    {
      Safety.ChosenWasSaid(c, x.h, x.gs, x.chosen, k);
    }
  }

  lemma CtrlMoves(n: nat, w: System, w2: System, s: int, a: Raft.Action, x: Aux) returns (x2: Aux)
    requires CtrlOk(n, w, x) && Next(n, w, Control(s, a), w2)
    ensures CtrlOk(n, w2, x2)
  {
    hide Safety.Underway, Raft.NextBy, Raft.Tolerates, RaftInvariant.Extends, Settled, Controller.Sensible;
    Safety.StepIndex(w.ctrl, w2.ctrl, s, a);
    Safety.HandIsChosen(w.ctrl, x.h, x.gs, x.chosen, s);
    Safety.IndexedTolerates(w.ctrl.start, w.ctrl.nodes[s], x.chosen);
    var h2, gs2, chosen2, t := Safety.UnderwayStep(w.ctrl, w2.ctrl, s, a, x.h, x.gs, x.chosen);
    x2 := Aux(h2, gs2, chosen2);
    SaidChosen(n, w2.ctrl, x2);
    SettledGrows(n, x.chosen, chosen2);
  }

  /** What a replica of the controller has applied is the beginning of what is settled. */
  lemma PublishedOk(n: nat, w: System, s: int, x: Aux)
    requires CtrlOk(n, w, x) && 0 <= s < |w.ctrl.nodes| && w.ctrl.nodes[s].kv.CtrlData?
    ensures Shown(w.ctrl.nodes[s].kv.configs) <= Settled(n, x.chosen)
  {
    hide Safety.Underway;
    Safety.HandIsChosen(w.ctrl, x.h, x.gs, x.chosen, s);
    var k := RaftInvariant.AppliedTo(w.ctrl.nodes[s]);
    SettledGrows(n, x.chosen[..k], x.chosen);
    ReplayIs(n, x.chosen[..k]);
    hide Controller.History, RaftInvariant.Replay;
  }

  lemma {:induction false} CtrlAlways(n: nat, ws: seq<System>, acts: seq<Action>, t: nat) returns (x: Aux)
    requires Run(n, ws, acts) && t < |ws|
    ensures CtrlOk(n, ws[t], x)
  {
    hide CtrlOk, Init;
    if t == 0 {
      x := CtrlInit(n, ws[0]);
    } else {
      x := CtrlAlways(n, ws, acts, t - 1);
      assert Next(n, ws[t - 1], acts[t - 1], ws[t]);
      x := CtrlStep(n, ws[t - 1], acts[t - 1], ws[t], x);
    }
  }

  lemma CtrlStep(n: nat, w: System, a: Action, w2: System, x: Aux) returns (x2: Aux)
    requires CtrlOk(n, w, x) && Next(n, w, a, w2)
    ensures CtrlOk(n, w2, x2)
  {
    hide Safety.Underway, Store.Next, Settled, Shown, Raft.NextBy, ChosenOk, SaidOk;
    x2 := x;
    match a
    case Control(s, step) => x2 := CtrlMoves(n, w, w2, s, step, x);
    case Publish(s) => PublishedOk(n, w, s, x);
    case Act(_, _) =>
  }

  // ----- The store, under the configurations the controller comes to -----

  /** Knowing more configurations, the store can still take the step. */
  lemma KnowsMore(n: nat, view: View, view2: View, w: Store.Store, a: Store.Action, w2: Store.Store)
    requires Store.Next(Spec.Env(n, view), w, a, w2) && view <= view2
    ensures Store.Next(Spec.Env(n, view2), w, a, w2)
  {
    hide Raft.NextBy, Store.Replies;
  }

  function StoreStep(a: Action): Store.Action {
    if a.Act? then a.step else Store.Elsewhere
  }

  ghost function Stores(ws: seq<System>): seq<Store.Store> {
    seq(|ws|, k requires 0 <= k < |ws| => ws[k].store)
  }

  ghost function StoreSteps(acts: seq<Action>): seq<Store.Action> {
    seq(|acts|, k requires 0 <= k < |acts| => StoreStep(acts[k]))
  }

  lemma {:induction false} ViewsStay(n: nat, ws: seq<System>, acts: seq<Action>, t: nat, u: nat)
    requires Run(n, ws, acts) && t <= u < |ws|
    ensures ws[t].views <= ws[u].views
    decreases u - t
  {
    hide Init, Store.Next, Raft.NextBy;
    if t < u {
      ViewsStay(n, ws, acts, t, u - 1);
      assert Next(n, ws[u - 1], acts[u - 1], ws[u]);
    }
  }

  /** Of every run: what the store does is a run of it under the configurations the controller settles on. */
  lemma StoreRuns(n: nat, ws: seq<System>, acts: seq<Action>) returns (x: Aux, view: View)
    requires n > 0 && Run(n, ws, acts)
    ensures CtrlOk(n, ws[|acts|], x) && view == Settled(n, x.chosen)
    ensures Spec.EnvOk(Spec.Env(n, view)) && Store.Run(Spec.Env(n, view), Stores(ws), StoreSteps(acts))
  {
    x := CtrlAlways(n, ws, acts, |acts|);
    SettledIsEnv(n, x.chosen);
    view := Settled(n, x.chosen);
    hide Settled, Safety.Underway, Spec.EnvOk, Store.Next, Raft.NextBy, Raft.Init;
    forall t, u | 0 <= t && u == t + 1 <= |acts|
      ensures Store.Next(Spec.Env(n, view), Stores(ws)[t], StoreSteps(acts)[t], Stores(ws)[u])
    {
      assert Next(n, ws[t], acts[t], ws[u]);
      ViewsStay(n, ws, acts, t, |acts|);
      if acts[t].Act? {
        KnowsMore(n, acts[t].view, view, ws[t].store, acts[t].step, ws[u].store);
      } else {
        Stays(Spec.Env(n, view), ws[t].store);
      }
    }
  }

  lemma Stays(env: Spec.Env, w: Store.Store)
    ensures Store.Next(env, w, Store.Elsewhere, w)
  {
  }

  /** What the clerks do in a step. */
  function EventOf(a: Action): Clients.Event {
    Refinement.EventOf(StoreStep(a))
  }

  ghost function Events(acts: seq<Action>): seq<Clients.Event> {
    seq(|acts|, k requires 0 <= k < |acts| => EventOf(acts[k]))
  }

  ghost function ClerksIn(ws: seq<System>): seq<Clients.Clerks> {
    seq(|ws|, k requires 0 <= k < |ws| => ws[k].store.clerks)
  }

  /**
   The whole system is linearizable: groups and controller on Raft clusters, with lost, repeated and reordered
   messages, crashes, snapshots, and configurations that come while shards migrate, look like one store.
   */
  lemma WholeSystemIsLinearizable(n: nat, ws: seq<System>, acts: seq<Action>)
    returns (h: KvModel.History, ops: seq<Op>)
    requires n > 0 && Run(n, ws, acts)
    ensures Time.Timed(h) && Linearizable(KvModel.STORE_MODEL, Time.ProblemOfHistory(h))
    ensures |ops| == |h| && forall i {:trigger h[i]} :: 0 <= i < |h| ==>
      Clients.Records(Events(acts), ClerksIn(ws), h[i], ops[i])
    ensures forall i, j {:trigger ops[i], ops[j]} :: 0 <= i < j < |ops| ==> ops[i] != ops[j]
    ensures forall r {:trigger Events(acts)[r]} :: 0 <= r < |acts| && Events(acts)[r].Accept? ==>
      exists i {:trigger h[i]} :: 0 <= i < |h| && h[i].ret == r
  {
    hide Store.Run, CtrlOk, Settled, Spec.EnvOk, Clients.Records, Linearizable, Time.ProblemOfHistory, Time.Timed;
    var _, view := StoreRuns(n, ws, acts);
    h, ops := Refinement.ShardedStoreIsLinearizable(Spec.Env(n, view), Stores(ws), StoreSteps(acts));
    assert Refinement.Events(StoreSteps(acts)) == Events(acts);
    assert Refinement.ClerksIn(Stores(ws)) == ClerksIn(ws);
    forall r | 0 <= r < |acts| && Events(acts)[r].Accept?
      ensures exists i :: 0 <= i < |h| && h[i].ret == r
    {
      assert StoreSteps(acts)[r].Accept?;
    }
  }
}
