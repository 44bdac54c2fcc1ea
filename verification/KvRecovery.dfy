/** The kvraft service goes on, too: whatever has happened, any operation a clerk is waiting for can be answered. */
module KvRecovery {
  import opened KvService
  import opened Service
  import opened KvCluster
  import Raft = RaftCluster
  import RaftServer
  import RaftInvariant
  import RaftSafety
  import Recovery = RaftRecovery
  import Responses = RaftResponses
  import Spec = ShardSystem
  import Refinement = KvRefinement

  ghost function Now(ws: seq<Store>): Store
    requires ws != []
  {
    ws[|ws| - 1]
  }

  lemma Long(ws: seq<Store>, acts: seq<Action>)
    requires Run(ws, acts)
    ensures |ws| == |acts| + 1
  {
  }

  lemma Extend(ws: seq<Store>, acts: seq<Action>, a: Action, w2: Store)
    requires Run(ws, acts) && Next(ws[|acts|], a, w2)
    ensures Run(ws + [w2], acts + [a])
  {
    hide Next, Init;
    var ws2, acts2 := ws + [w2], acts + [a];
    forall t, u | 0 <= t && u == t + 1 <= |acts2|
      ensures Next(ws2[t], acts2[t], ws2[u])
    {
      if u <= |acts| { assert Next(ws[t], acts[t], ws[u]); }
    }
  }

  // ----- The cluster underneath -----

  /** Without the steps of the clerks a run is a run of the cluster. */
  lemma {:induction false} ClusterRun(ws: seq<Store>, acts: seq<Action>) returns (run: seq<Raft.Cluster>)
    requires Run(ws, acts)
    ensures Raft.Run(run) && run[0] == ws[0].cluster && run[|run| - 1] == Now(ws).cluster
    ensures run[0].start == KvData(EMPTY)
    decreases |acts|
  {
    hide Raft.NextBy, Raft.Init;
    if acts == [] {
      run := [ws[0].cluster];
    } else {
      var n := |acts|;
      Refinement.RunBefore(ws, acts);
      run := ClusterRun(ws[..n], acts[..n - 1]);
      assert Next(ws[n - 1], acts[n - 1], ws[n]);
      if acts[n - 1].Serve? || acts[n - 1].Peer? { run := Longer(run, ws[n].cluster); }
    }
  }

  lemma Longer(run: seq<Raft.Cluster>, c: Raft.Cluster) returns (run2: seq<Raft.Cluster>)
    requires Raft.Run(run) && Raft.Next(run[|run| - 1], c)
    ensures Raft.Run(run2) && run2 == run + [c]
  {
    hide Raft.NextBy, Raft.Init;
    run2 := run + [c];
    forall i | 0 <= i < |run2| - 1
      ensures Raft.Next(run2[i], run2[i + 1])
    {
      if i < |run| - 1 { assert Raft.Next(run[i], run[i + 1]); }
    }
  }

  /** One step of the cluster is one of the service. */
  lemma LiftStep(ws: seq<Store>, acts: seq<Action>, s: int, a: Raft.Action, c: Raft.Cluster)
    returns (ws2: seq<Store>, acts2: seq<Action>)
    requires Run(ws, acts) && ws != [] && Raft.NextBy(Now(ws).cluster, c, s, a) && !a.Propose?
    ensures Run(ws2, acts2) && ws <= ws2 && Now(ws2).cluster == c && Now(ws2).clerks == Now(ws).clerks
    ensures 0 <= s < |Now(ws).cluster.nodes| && Replies(Now(ws).cluster.nodes[s], a) <= Now(ws2).replies
  {
    hide Run;
    Long(ws, acts);
    var w := Now(ws);
    InRange(w.cluster, c, s, a);
    var w2 := w.(cluster := c, replies := w.replies + Replies(w.cluster.nodes[s], a));
    hide Raft.NextBy, Replies;
    assert Next(w, Peer(s, a), w2);
    Extend(ws, acts, Peer(s, a), w2);
    ws2, acts2 := ws + [w2], acts + [Peer(s, a)];
  }

  lemma InRange(c: Raft.Cluster, c2: Raft.Cluster, s: int, a: Raft.Action)
    requires Raft.NextBy(c, c2, s, a)
    ensures 0 <= s < |c.nodes|
  {
    hide Raft.Step, Raft.Enabled, Raft.InBounds;
  }

  /** What the cluster does without new commands the service does. */
  lemma {:induction false} Lift(ws: seq<Store>, acts: seq<Action>, run: seq<Raft.Cluster>, run2: seq<Raft.Cluster>)
    returns (ws2: seq<Store>, acts2: seq<Action>)
    requires Run(ws, acts) && ws != [] && Recovery.Quiet(run, run2) && Recovery.Now(run) == Now(ws).cluster
    ensures Run(ws2, acts2) && ws <= ws2 && Now(ws2).cluster == Recovery.Now(run2) && Now(ws2).clerks == Now(ws).clerks
    decreases |run2|
  {
    hide Run, Raft.NextBy;
    ws2, acts2 := ws, acts;
    if run2 == run {
    } else {
      var k := |run2| - 1;
      assert run2[..k][..|run|] == run2[..|run|] == run;
      assert Recovery.Unprompted(run2[k - 1], run2[k]);
      ws2, acts2 := Lift(ws, acts, run, run2[..k]);
      var s, a :| Raft.NextBy(run2[k - 1], run2[k], s, a) && !a.Propose?;
      hide Recovery.Quiet, Recovery.Unprompted, Replies;
      ws2, acts2 := LiftStep(ws2, acts2, s, a, run2[k]);
    }
  }

  // ----- Clerks -----

  /** A clerk numbers its own operations from 1. */
  ghost predicate Numbered(client: int, clerk: Spec.Clerk) {
    clerk.answered <= |clerk.ops| && forall k {:trigger clerk.ops[k]} :: 0 <= k < |clerk.ops| ==>
      clerk.ops[k].clientId == client && clerk.ops[k].seqNum == k + 1
  }

  lemma {:induction false} AllNumbered(ws: seq<Store>, acts: seq<Action>)
    requires Run(ws, acts)
    ensures forall c {:trigger Now(ws).clerks[c]} :: c in Now(ws).clerks ==> Numbered(c, Now(ws).clerks[c])
    decreases |acts|
  {
    hide Raft.NextBy, Raft.Init;
    if acts != [] {
      var n := |acts|;
      Refinement.RunBefore(ws, acts);
      AllNumbered(ws[..n], acts[..n - 1]);
      assert Now(ws[..n]) == ws[n - 1] && Next(ws[n - 1], acts[n - 1], ws[n]);
      forall c | c in ws[n].clerks
        ensures Numbered(c, ws[n].clerks[c])
      {
        if c in ws[n - 1].clerks { assert Numbered(c, Now(ws[..n]).clerks[c]); }
      }
    }
  }

  // ----- An answer -----

  lemma {:induction false} StaysKv(start: Data, l: RaftServer.Log)
    requires start.KvData?
    ensures RaftInvariant.Replay(start, l).KvData?
  {
    if l != [] { StaysKv(start, l[..|l| - 1]); }
  }

  lemma HasKv(run: seq<Raft.Cluster>, s: int)
    requires Recovery.Live(run) && run[0].start.KvData? && 0 <= s < |Recovery.Now(run).nodes|
    ensures Recovery.Now(run).nodes[s].kv.KvData?
  {
    hide Raft.ServedRun, RaftSafety.Proposed;
    var chosen := RaftSafety.StateMachineSafety(run);
    var node := Recovery.Now(run).nodes[s];
    assert RaftSafety.AgreesWith(run[0].start, run[|run| - 1].nodes[s], chosen);
    StaysKv(run[0].start, chosen[..RaftInvariant.AppliedTo(node)]);
  }

  /** The leader takes the operation in, and everyone comes to have it. */
  lemma Served(ws: seq<Store>, acts: seq<Action>, run: seq<Raft.Cluster>, m: int, op: Op)
    returns (ws2: seq<Store>, acts2: seq<Action>, run2: seq<Raft.Cluster>)
    requires Run(ws, acts) && ws != [] && Recovery.Live(run) && Recovery.Now(run) == Now(ws).cluster
    requires Recovery.Led(Recovery.Now(run), m) && Recovery.NewLeader(Recovery.Now(run).nodes[m].rf)
    requires Issued(Now(ws), op)
    ensures Run(ws2, acts2) && ws <= ws2 && Recovery.Live(run2) && Recovery.Now(run2) == Now(ws2).cluster && run <= run2
    ensures Now(ws2).clerks == Now(ws).clerks
    ensures 0 <= m < |Recovery.Now(run2).nodes| && RaftInvariant.Due(Recovery.Now(run2).nodes[m])
    ensures Recovery.Now(run2).nodes[m].hand.msg.command == KvCmd(op)
  {
    hide Run, Recovery.Quiet, Recovery.Live, Raft.NextBy, Recovery.Reached, Recovery.Behind;
    var run1 := Recovery.ProposeOnce(run, m, KvCmd(op));
    var w2 := Now(ws).(cluster := Recovery.Now(run1));
    Long(ws, acts);
    assert Next(Now(ws), Serve(m, op), w2);
    Extend(ws, acts, Serve(m, op), w2);
    ws2, acts2 := ws + [w2], acts + [Serve(m, op)];
    Recovery.AllBehind(run, run1, m, [KvCmd(op)]);
    var run3 := Recovery.Spread(run1, m);
    Recovery.KvLastBelow(run, m);
    EndOfLog(run, run1, run3, m, op);
    run2 := Recovery.HandOver(run3, m);
    Recovery.QuietOn(run1, run3, run2);
    ws2, acts2 := Lift(ws2, acts2, run1, run2);
  }

  lemma EndOfLog(run: seq<Raft.Cluster>, run1: seq<Raft.Cluster>, run2: seq<Raft.Cluster>, m: int, op: Op)
    requires Recovery.Live(run) && Recovery.Live(run1) && Recovery.Live(run2)
    requires Recovery.Led(Recovery.Now(run), m) && Recovery.Led(Recovery.Now(run2), m)
    requires 0 <= m < |Recovery.Now(run1).nodes|
    requires Recovery.GrownBy(Recovery.Now(run).nodes[m].rf, Recovery.Now(run1).nodes[m].rf, [KvCmd(op)])
    requires Recovery.SameLog(Recovery.Now(run1), Recovery.Now(run2), m)
    requires var rf := Recovery.Now(run2).nodes[m].rf; rf.commitIndex == RaftServer.LastLogIndex(rf)
    ensures var rf := Recovery.Now(run2).nodes[m].rf;
      && Recovery.Calm(Recovery.Now(run2).nodes[m]) && rf.lastApplied < rf.commitIndex
      && rf.log != [] && rf.log[|rf.log| - 1].command == KvCmd(op)
  {
    Recovery.LeaderAgrees(run, m, m);
    Recovery.KvLastBelow(run, m);
    var rf, rf1 := Recovery.Now(run).nodes[m].rf, Recovery.Now(run1).nodes[m].rf;
    assert rf1.log[|rf.log| + 0].command == [KvCmd(op)][0];
  }

  /** On two replicas or more, whatever crashes, losses and snapshots there were, a waiting clerk can be answered. */
  lemma Answer(ws: seq<Store>, acts: seq<Action>, client: int) returns (ws2: seq<Store>, acts2: seq<Action>)
    requires Run(ws, acts) && ws != [] && |Now(ws).cluster.nodes| >= 2
    requires client in Now(ws).clerks && Now(ws).clerks[client].answered < |Now(ws).clerks[client].ops|
    ensures Run(ws2, acts2) && ws <= ws2 && client in Now(ws2).clerks
    ensures Now(ws2).clerks[client].answered == Now(ws).clerks[client].answered + 1
  {
    hide Run, Raft.Run, Raft.ServedRun, Recovery.Quiet;
    AllNumbered(ws, acts);
    var op := Now(ws).clerks[client].ops[Now(ws).clerks[client].answered];
    var run := ClusterRun(ws, acts);
    RaftSafety.IndexedRunIsServed(run);
    NotEmpty(run);
    var run1 := Recovery.RestartAll(run, 0);
    var run2, m := Recovery.Elect(run1);
    Recovery.QuietOn(run, run1, run2);
    ws2, acts2 := Lift(ws, acts, run, run2);
    ws2, acts2, run2 := Served(ws2, acts2, run2, m, op);
    ws2, acts2 := Answered(ws2, acts2, run2, m, client, op);
  }

  lemma NotEmpty(run: seq<Raft.Cluster>)
    requires Raft.ServedRun(run)
    ensures run != []
  {
  }

  /** With the operation in hand, the replica applies it and answers, and the clerk accepts. */
  lemma Answered(ws: seq<Store>, acts: seq<Action>, run: seq<Raft.Cluster>, m: int, client: int, op: Op)
    returns (ws2: seq<Store>, acts2: seq<Action>)
    requires Run(ws, acts) && ws != [] && Recovery.Live(run) && Recovery.Now(run) == Now(ws).cluster
    requires run[0].start.KvData? && 0 <= m < |Recovery.Now(run).nodes|
    requires RaftInvariant.Due(Recovery.Now(run).nodes[m]) && Recovery.Now(run).nodes[m].hand.msg.command == KvCmd(op)
    requires client in Now(ws).clerks && Now(ws).clerks[client].answered < |Now(ws).clerks[client].ops|
    requires op.clientId == client && op.seqNum == Now(ws).clerks[client].answered + 1
    ensures Run(ws2, acts2) && ws <= ws2 && client in Now(ws2).clerks
    ensures Now(ws2).clerks[client] == Now(ws).clerks[client].(answered := Now(ws).clerks[client].answered + 1)
  {
    hide Run, Raft.NextBy, Recovery.Quiet;
    HasKv(run, m);
    var run2 := Recovery.Go(run, m, Raft.Handle(false));
    var node := Now(ws).cluster.nodes[m];
    ws2, acts2 := LiftStep(ws, acts, m, Raft.Handle(false), Recovery.Now(run2));
    var value := if op.optype == Get then Value(node.kv.kv.store, op.key) else op.value;
    assert Reply(client, op.seqNum, value) in Replies(node, Raft.Handle(false));
    var w := Now(ws2);
    var w2 := w.(clerks := w.clerks[client := w.clerks[client].(answered := w.clerks[client].answered + 1)]);
    Long(ws2, acts2);
    assert Next(w, Accept(client, value), w2);
    Extend(ws2, acts2, Accept(client, value), w2);
    ws2, acts2 := ws2 + [w2], acts2 + [Accept(client, value)];
  }

  // ----- Exactly when -----

  /** A replica alone never answers. */
  lemma {:induction false} NoReplies(ws: seq<Store>, acts: seq<Action>)
    requires Run(ws, acts) && |ws[0].cluster.nodes| <= 1
    ensures Now(ws).replies == {} && |Now(ws).cluster.nodes| <= 1
    ensures forall c {:trigger Now(ws).clerks[c]} :: c in Now(ws).clerks ==> Now(ws).clerks[c].answered == 0
    decreases |acts|
  {
    hide Raft.NextBy, Raft.Init;
    if acts != [] {
      var n := |acts|;
      Refinement.RunBefore(ws, acts);
      assert ws[..n][0] == ws[0] && Now(ws[..n]) == ws[n - 1] && Next(ws[n - 1], acts[n - 1], ws[n]);
      NoReplies(ws[..n], acts[..n - 1]);
      if acts[n - 1].Serve? || acts[n - 1].Peer? { NothingInHand(ws[..n], acts[..n - 1], ws[n].cluster); }
      forall c | c in ws[n].clerks
        ensures ws[n].clerks[c].answered == 0
      {
        if c in ws[n - 1].clerks { assert Now(ws[..n]).clerks[c].answered == 0; }
      }
    }
  }

  lemma NothingInHand(ws: seq<Store>, acts: seq<Action>, c: Raft.Cluster)
    requires Run(ws, acts) && |Now(ws).cluster.nodes| <= 1 && Raft.Next(Now(ws).cluster, c)
    ensures |Now(ws).cluster.nodes| == |c.nodes| == 1 && Now(ws).cluster.nodes[0].hand.Empty?
  {
    var s, a :| Raft.NextBy(Now(ws).cluster, c, s, a);
    InRange(Now(ws).cluster, c, s, a);
    hide Run;
    var run := ClusterRun(ws, acts);
    RaftSafety.SameSize(run, |run| - 1);
    Responses.AloneNeverLeads(run, |run| - 1);
    hide Raft.Run, Raft.Step, Raft.Enabled;
  }

  ghost predicate MoreAnswered(w: Store, w2: Store, client: int)
    requires client in w.clerks
  {
    client in w2.clerks && w2.clerks[client].answered > w.clerks[client].answered
  }

  /** After any run of the service, the operation a clerk is waiting for can be answered exactly if there are peers. */
  lemma AnswersExactlyWithPeers(ws: seq<Store>, acts: seq<Action>, client: int)
    requires Run(ws, acts) && ws != []
    requires client in Now(ws).clerks && Now(ws).clerks[client].answered < |Now(ws).clerks[client].ops|
    ensures (exists ws2, acts2 {:trigger Run(ws2, acts2)} ::
        Run(ws2, acts2) && ws <= ws2 && MoreAnswered(Now(ws), Now(ws2), client))
      <==> |Now(ws).cluster.nodes| >= 2
  {
    Sizes(ws, acts);
    hide Run;
    if |Now(ws).cluster.nodes| >= 2 {
      var ws2, acts2 := Answer(ws, acts, client);
    } else {
      forall ws2: seq<Store>, acts2 | Run(ws2, acts2) && ws <= ws2
        ensures !MoreAnswered(Now(ws), Now(ws2), client)
      {
        NoReplies(ws2, acts2);
      }
    }
  }

  lemma Sizes(ws: seq<Store>, acts: seq<Action>)
    requires Run(ws, acts)
    ensures |ws[0].cluster.nodes| == |Now(ws).cluster.nodes|
  {
    hide Raft.NextBy, Raft.Init;
    var run := ClusterRun(ws, acts);
    RaftSafety.SameSize(run, |run| - 1);
  }
}
