/** Runs of the system of committed logs, extended step by step as a cluster underneath moves on. */
module AbstractRun {
  import opened ShardService
  import opened KvService
  import Spec = ShardSystem
  import Inv = ShardInvariant
  import Runs = ShardSafety
  import Promises = ShardTheorems
  import Clients = ClientView

  /** A run of the system of committed logs, and its last world. */
  ghost predicate Trace(env: Spec.Env, ws: seq<Spec.World>, acts: seq<Spec.Action>) {
    Spec.EnvOk(env) && Spec.Run(env, ws, acts)
  }

  ghost function Now(ws: seq<Spec.World>): Spec.World
    requires ws != []
  {
    ws[|ws| - 1]
  }

  lemma TraceLong(env: Spec.Env, ws: seq<Spec.World>, acts: seq<Spec.Action>)
    requires Trace(env, ws, acts)
    ensures Spec.EnvOk(env) && |ws| == |acts| + 1
  {
    hide Spec.Next, Spec.Init;
  }

  lemma TraceInv(env: Spec.Env, ws: seq<Spec.World>, acts: seq<Spec.Action>) returns (hist: Inv.History)
    requires Trace(env, ws, acts)
    ensures Spec.EnvOk(env) && |ws| == |acts| + 1 && Inv.Inv(env, Now(ws), hist)
  {
    hist := Runs.RunIsOk(env, ws, acts, |ws| - 1);
  }

  lemma Extend(env: Spec.Env, ws: seq<Spec.World>, acts: seq<Spec.Action>, a: Spec.Action)
    returns (ws2: seq<Spec.World>, acts2: seq<Spec.Action>)
    requires Trace(env, ws, acts) && Spec.Enabled(env, Now(ws), a)
    ensures Spec.CanApply(env, Now(ws), a) && Trace(env, ws2, acts2)
    ensures ws2 == ws + [Spec.Step(env, Now(ws), a)] && acts2 == acts + [a]
  {
    Promises.NeverOutOfRange(env, ws, acts, |ws| - 1, a);
    hide Spec.Enabled, Spec.Step, Spec.CanApply, Spec.Init;
    ws2, acts2 := ws + [Spec.Step(env, Now(ws), a)], acts + [a];
    forall t, u | 0 <= t && u == t + 1 <= |acts2|
      ensures Spec.Next(env, ws2[t], acts2[t], ws2[u])
    {
      if u <= |acts| { assert Spec.Next(env, ws[t], acts[t], ws[u]); }
    }
  }

  /** Logs, states and proposals only grow. */
  ghost predicate Grows(w: Spec.World, w2: Spec.World) {
    && w2.groups.Keys == w.groups.Keys
    && forall g {:trigger w2.groups[g]} :: g in w.groups ==>
         && w.groups[g].log <= w2.groups[g].log && w.groups[g].states <= w2.groups[g].states
         && w.groups[g].pending <= w2.groups[g].pending
  }

  /** Only group g changed, and only its log and states. */
  ghost predicate OnlyLog(w: Spec.World, w2: Spec.World, g: int) {
    && Grows(w, w2) && g in w.groups
    && w2 == w.(groups := w.groups[g := w2.groups[g]]) && w2.groups[g].pending == w.groups[g].pending
  }

  ghost predicate AllCommits(acts: seq<Spec.Action>) {
    forall j {:trigger acts[j]} :: 0 <= j < |acts| ==> acts[j].Commit?
  }

  /** Commands handed to a group are committed one by one, up to a given log. */
  lemma {:induction false} CatchUp(env: Spec.Env, ws: seq<Spec.World>, acts: seq<Spec.Action>, g: int,
                                   log: seq<Command>)
    returns (ws2: seq<Spec.World>, more: seq<Spec.Action>)
    requires Trace(env, ws, acts) && g in Now(ws).groups && Now(ws).groups[g].log <= log
    requires forall k {:trigger log[k]} :: |Now(ws).groups[g].log| <= k < |log| ==> log[k] in Now(ws).groups[g].pending
    ensures Trace(env, ws2, acts + more) && AllCommits(more) && ws <= ws2 && ws2 != []
    ensures OnlyLog(Now(ws), Now(ws2), g) && Now(ws2).groups[g].log == log
    decreases |log| - |Now(ws).groups[g].log|
  {
    hide Trace, Spec.Step, Spec.Enabled;
    TraceLong(env, ws, acts);
    var k := |Now(ws).groups[g].log|;
    if k == |log| {
      ws2, more := ws, [];
      assert acts + more == acts;
      assert Now(ws).groups[g := Now(ws).groups[g]] == Now(ws).groups;
    } else {
      var ws1 := CommitOne(env, ws, acts, g, log[k]);
      ws2, more := CatchUp(env, ws1, acts + [Spec.Commit(g, log[k])], g, log);
      more := [Spec.Commit(g, log[k])] + more;
      assert acts + more == acts + [Spec.Commit(g, log[k])] + more[1..];
    }
  }

  lemma CommitOne(env: Spec.Env, ws: seq<Spec.World>, acts: seq<Spec.Action>, g: int, cmd: Command)
    returns (ws2: seq<Spec.World>)
    requires Trace(env, ws, acts) && g in Now(ws).groups && cmd in Now(ws).groups[g].pending
    ensures Trace(env, ws2, acts + [Spec.Commit(g, cmd)]) && ws <= ws2 && ws2 != []
    ensures OnlyLog(Now(ws), Now(ws2), g) && Now(ws2).groups[g].log == Now(ws).groups[g].log + [cmd]
  {
    hide Trace;
    TraceLong(env, ws, acts);
    HasStates(env, ws, acts, g);
    var acts2;
    ws2, acts2 := Extend(env, ws, acts, Spec.Commit(g, cmd));
    CommitStep(env, Now(ws), g, cmd);
  }

  lemma HasStates(env: Spec.Env, ws: seq<Spec.World>, acts: seq<Spec.Action>, g: int)
    requires Trace(env, ws, acts) && g in Now(ws).groups
    ensures Now(ws).groups[g].states != []
  {
    var hist := TraceInv(env, ws, acts);
    assert Inv.GroupOk(env, hist, g, Now(ws).groups[g]);
  }

  lemma CommitStep(env: Spec.Env, w: Spec.World, g: int, cmd: Command)
    requires Spec.EnvOk(env) && Spec.Enabled(env, w, Spec.Commit(g, cmd)) && Spec.CanApply(env, w, Spec.Commit(g, cmd))
    ensures var w2 := Spec.Step(env, w, Spec.Commit(g, cmd));
      OnlyLog(w, w2, g) && w2.groups[g].log == w.groups[g].log + [cmd]
  {
  }

  // ----- Answers -----

  /** The reply the group's state at that place of its log gives. */
  ghost predicate Replied(env: Spec.Env, w: Spec.World, g: int, k: nat, client: int, seqNum: int, value: string) {
    && Spec.ReadsAt(env, w, g, k) && k < |w.groups[g].log| && w.groups[g].log[k].Operation?
    && var op, s := w.groups[g].log[k].op, w.groups[g].states[k];
       && op.clientId == client && op.seqNum == seqNum && Serves(env.n, s, op)
       && (op.optype == Get ==> value == Value(s.kv, op.key))
  }

  lemma RepliedStill(env: Spec.Env, w: Spec.World, w2: Spec.World, g: int, k: nat, client: int, seqNum: int,
                     value: string)
    requires Grows(w, w2) && Replied(env, w, g, k, client, seqNum, value)
    ensures Replied(env, w2, g, k, client, seqNum, value)
  {
  }

  /** A reply to the operation the clerk is waiting for can be accepted. */
  lemma AnswerReady(env: Spec.Env, ws: seq<Spec.World>, acts: seq<Spec.Action>, g: int, k: nat, client: int,
                    value: string)
    requires Trace(env, ws, acts) && client in Now(ws).clerks
    requires Now(ws).clerks[client].answered < |Now(ws).clerks[client].ops|
    requires Replied(env, Now(ws), g, k, client, Now(ws).clerks[client].answered + 1, value)
    ensures Spec.Enabled(env, Now(ws), Spec.Answer(client, g, k))
    ensures Clients.Accepts(env, Now(ws), Spec.Answer(client, g, k), Clients.Accept(client, value))
  {
    hide Inv.Inv;
    var hist := TraceInv(env, ws, acts);
    ServedWasIssued(env, Now(ws), hist, g, k);
  }

  lemma ServedWasIssued(env: Spec.Env, aw: Spec.World, hist: Inv.History, g: int, k: nat)
    requires Spec.EnvOk(env) && Inv.Inv(env, aw, hist) && Spec.ReadsAt(env, aw, g, k) && k < |aw.groups[g].log|
    requires aw.groups[g].log[k].Operation? && Serves(env.n, aw.groups[g].states[k], aw.groups[g].log[k].op)
    ensures Spec.Issued(aw, aw.groups[g].log[k].op)
  {
    hide Inv.StateOk, Inv.LatestOk, Inv.Base, Inv.TokenOk, Inv.CommandOk, Inv.ClerkOk, Spec.Issued;
    var group := aw.groups[g];
    assert Inv.GroupOk(env, hist, g, group);
    assert Inv.EntryOk(env, hist, g, group.states[k], group.log[k], group.states[k + 1]);
    assert group.log[k].op in hist.executed;
  }
}
