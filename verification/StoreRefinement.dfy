/**
 Every run of the store over Raft clusters is a run of the system of committed logs: a group's log is what
 its cluster has chosen, and what a replica has applied is one of the states that log goes through.
 */
module StoreRefinement {
  import opened KvService
  import opened Service
  import opened ShardService
  import opened Linearizability
  import opened StoreCluster
  import opened AbstractRun
  import KvModel
  import Time = Timeline
  import Raft = RaftCluster
  import Safety = RaftSafety
  import RaftServer
  import RaftHistory
  import RaftInvariant
  import Spec = ShardSystem
  import Inv = ShardInvariant
  import Promises = ShardTheorems
  import Clients = ClientView

  /** What Raft's proof keeps beside one cluster. */
  datatype Aux = Aux(h: RaftHistory.History, gs: seq<RaftInvariant.Shadow>, chosen: RaftServer.Log)

  // ----- One group -----

  ghost predicate LogIs(chosen: RaftServer.Log, log: seq<Command>) {
    |chosen| == |log| && forall k {:trigger log[k]} :: 0 <= k < |log| ==> chosen[k].command == GroupCmd(log[k])
  }

  ghost function Commands(chosen: RaftServer.Log): seq<Command> {
    seq(|chosen|, k requires 0 <= k < |chosen| =>
      if chosen[k].command.GroupCmd? then chosen[k].command.cmd else NoOperation)
  }

  ghost predicate SaidIn(said: set<Cmd>, pending: set<Command>) {
    forall cmd {:trigger cmd in said} :: cmd in said ==> cmd.GroupCmd? && cmd.cmd in pending
  }

  /** The group's log is what its cluster has chosen, of commands that were handed to it. */
  ghost predicate Matched(n: nat, g: int, c: Raft.Cluster, x: Aux, group: Spec.Group) {
    && Safety.Underway(c, x.h, x.gs, x.chosen) && c.start == GroupData(n, g, Start(n))
    && LogIs(x.chosen, group.log) && SaidIn(x.h.said, group.pending)
  }

  /** Folding the chosen commands goes through the group's states. */
  lemma {:induction false} ReplayIs(env: Spec.Env, hist: Inv.History, g: int, group: Spec.Group,
                                    chosen: RaftServer.Log, k: nat)
    requires Spec.EnvOk(env) && Inv.HistoryShaped(env, hist) && Inv.GroupOk(env, hist, g, group)
    requires LogIs(chosen, group.log) && k <= |chosen|
    ensures k < |group.states|
    ensures RaftInvariant.Replay(GroupData(env.n, g, Start(env.n)), chosen[..k]) == GroupData(env.n, g, group.states[k])
  {
    hide Inv.StateOk, Inv.LatestOk, Inv.Base;
    if k > 0 {
      ReplayIs(env, hist, g, group, chosen, k - 1);
      assert chosen[..k][..k - 1] == chosen[..k - 1];
      assert Inv.EntryOk(env, hist, g, group.states[k - 1], group.log[k - 1], group.states[k]);
    }
  }

  /** A replica has applied the chosen commands up to its applied index. */
  lemma NodeState(env: Spec.Env, hist: Inv.History, g: int, c: Raft.Cluster, x: Aux, group: Spec.Group, s: int)
    requires Spec.EnvOk(env) && Inv.HistoryShaped(env, hist) && Inv.GroupOk(env, hist, g, group)
    requires Matched(env.n, g, c, x, group) && 0 <= s < |c.nodes|
    ensures var k := RaftInvariant.AppliedTo(c.nodes[s]);
      0 <= k < |group.states| && Shaped(env.n, group.states[k]) && c.nodes[s].kv == GroupData(env.n, g, group.states[k])
  {
    hide Safety.Underway, Inv.StateOk, Inv.LatestOk, Inv.EntryOk;
    Safety.HandIsChosen(c, x.h, x.gs, x.chosen, s);
    var k := RaftInvariant.AppliedTo(c.nodes[s]);
    ReplayIs(env, hist, g, group, x.chosen, k);
    assert Inv.Base(env, hist, group.states[k]);
  }

  /** A merge or a confirmation that comes too late changes nothing. */
  lemma Tolerant(env: Spec.Env, hist: Inv.History, g: int, c: Raft.Cluster, x: Aux, group: Spec.Group, s: int)
    requires Spec.EnvOk(env) && Inv.HistoryShaped(env, hist) && Inv.GroupOk(env, hist, g, group)
    requires Matched(env.n, g, c, x, group) && 0 <= s < |c.nodes|
    ensures Raft.Tolerates(c.nodes[s])
  {
    hide Safety.Underway, Inv.GroupOk;
    Safety.HandIsChosen(c, x.h, x.gs, x.chosen, s);
    NodeState(env, hist, g, c, x, group, s);
    var node := c.nodes[s];
    if node.hand.Holding? && node.hand.msg.Command? && node.hand.msg.index <= node.kvLast {
      var j, k := node.hand.msg.index - 1, RaftInvariant.AppliedTo(node);
      assert node.hand.msg.command == GroupCmd(group.log[j]);
      if group.log[j].Merge? || group.log[j].Confirm? {
        Promises.HarmlessAgain(env, hist, g, group, j, k);
      }
    }
  }

  // ----- Messages -----

  ghost predicate FoundAt(env: Spec.Env, w: Spec.World, g: int, at: nat, num: nat) {
    && Spec.ReadsAt(env, w, g, at)
    && var s := w.groups[g].states[at];
       s.config.num + 1 == num < |env.configs| && (s.config.num == 0 || Ready(s))
  }

  ghost predicate NumberAt(env: Spec.Env, w: Spec.World, g: int, at: nat, num: nat) {
    Spec.ReadsAt(env, w, g, at) && w.groups[g].states[at].config.num == num
  }

  ghost predicate GivesAt(env: Spec.Env, w: Spec.World, h: int, at: nat, num: nat, i: nat, data: map<string, string>,
                          seqs: map<int, int>)
  {
    && i < env.n && Spec.ReadsAt(env, w, h, at)
    && var s := w.groups[h].states[at];
       s.status[i] == BePulled && s.config.num == num && data == Part(env.n, s.kv, i) && seqs == s.clientSeq
  }

  ghost predicate OwesAt(env: Spec.Env, w: Spec.World, h: int, at: nat, g: int, i: nat) {
    && i < env.n && Spec.ReadsAt(env, w, h, at)
    && w.groups[h].states[at].status[i] == BePulled && w.groups[h].states[at].config.shards[i] == g
  }

  /** Group g was listed as the new owner, and owns the shard in the configuration of that number. */
  ghost predicate WaitsAt(env: Spec.Env, w: Spec.World, h: int, listed: nat, at: nat, g: int, num: nat, i: nat) {
    && OwesAt(env, w, h, listed, g, i) && Spec.ReadsAt(env, w, h, at)
    && w.groups[h].states[at].config.shards[i] == g && w.groups[h].states[at].config.num == num
  }

  ghost predicate HasAt(env: Spec.Env, w: Spec.World, g: int, at: nat, num: nat, i: nat, theirs: nat) {
    && i < env.n && Spec.ReadsAt(env, w, g, at)
    && var s := w.groups[g].states[at];
       Arrived(s, num, i) && s.config.num == theirs
  }

  /** Whatever was sent was read off states of the groups concerned. */
  ghost predicate MailOk(env: Spec.Env, w: Spec.World, m: Mail) {
    match m
    case Reply(client, seqNum, value) => exists g, k: nat :: Replied(env, w, g, k, client, seqNum, value)
    case Found(g, num) => exists at: nat :: FoundAt(env, w, g, at, num)
    case Wanted(_, _, _) => true
    case PartAsked(g, h, num, i) => exists at: nat :: NumberAt(env, w, g, at, num)
    case PartGiven(g, num, i, data, seqs) =>
      exists h, at: nat, theirs: nat ::
        NumberAt(env, w, g, at, num) && GivesAt(env, w, h, theirs, num, i, data, seqs)
    case Owed(h, g, i) => exists at: nat :: OwesAt(env, w, h, at, g, i)
    case DoneAsked(h, g, num, i) => exists listed: nat, at: nat :: WaitsAt(env, w, h, listed, at, g, num, i)
    case DoneSaid(h, num, i, theirs) =>
      exists g, listed: nat, at: nat, k: nat ::
        WaitsAt(env, w, h, listed, at, g, num, i) && HasAt(env, w, g, k, num, i, theirs)
  }

  /** What was read can still be read. */
  lemma ReadStill(env: Spec.Env, w: Spec.World, w2: Spec.World, g: int, at: nat)
    requires Grows(w, w2) && Spec.ReadsAt(env, w, g, at)
    ensures Spec.ReadsAt(env, w2, g, at) && w2.groups[g].states[at] == w.groups[g].states[at]
  {
  }

  lemma MailStill(env: Spec.Env, w: Spec.World, w2: Spec.World, m: Mail)
    requires Grows(w, w2) && MailOk(env, w, m)
    ensures MailOk(env, w2, m)
  {
    hide Grows, Spec.ReadsAt, Replied, Part, Ready, Arrived;
    match m
    case Reply(client, seqNum, value) =>
      var g, k: nat :| Replied(env, w, g, k, client, seqNum, value);
      RepliedStill(env, w, w2, g, k, client, seqNum, value);
    case Found(g, num) =>
      var at: nat :| FoundAt(env, w, g, at, num);
      ReadStill(env, w, w2, g, at);
      assert FoundAt(env, w2, g, at, num);
    case Wanted(_, _, _) =>
    case PartAsked(g, h, num, i) =>
      var at: nat :| NumberAt(env, w, g, at, num);
      ReadStill(env, w, w2, g, at);
      assert NumberAt(env, w2, g, at, num);
    case PartGiven(g, num, i, data, seqs) =>
      var h, at: nat, theirs: nat :|
        NumberAt(env, w, g, at, num) && GivesAt(env, w, h, theirs, num, i, data, seqs);
      ReadStill(env, w, w2, g, at);
      ReadStill(env, w, w2, h, theirs);
      assert NumberAt(env, w2, g, at, num) && GivesAt(env, w2, h, theirs, num, i, data, seqs);
    case Owed(h, g, i) =>
      var at: nat :| OwesAt(env, w, h, at, g, i);
      ReadStill(env, w, w2, h, at);
      assert OwesAt(env, w2, h, at, g, i);
    case DoneAsked(h, g, num, i) =>
      var listed: nat, at: nat :| WaitsAt(env, w, h, listed, at, g, num, i);
      ReadStill(env, w, w2, h, listed);
      ReadStill(env, w, w2, h, at);
      assert WaitsAt(env, w2, h, listed, at, g, num, i);
    case DoneSaid(h, num, i, theirs) =>
      var g, listed: nat, at: nat, k: nat :|
        WaitsAt(env, w, h, listed, at, g, num, i) && HasAt(env, w, g, k, num, i, theirs);
      ReadStill(env, w, w2, h, listed);
      ReadStill(env, w, w2, h, at);
      ReadStill(env, w, w2, g, k);
      assert WaitsAt(env, w2, h, listed, at, g, num, i) && HasAt(env, w2, g, k, num, i, theirs);
  }

  // ----- The whole store -----

  ghost predicate Sim(env: Spec.Env, w: Store, xs: map<int, Aux>, aw: Spec.World) {
    && w.groups.Keys == aw.groups.Keys == xs.Keys && w.clerks == aw.clerks
    && (forall g {:trigger xs[g]} :: g in xs ==> Matched(env.n, g, w.groups[g], xs[g], aw.groups[g]))
    && (forall m {:trigger m in w.mail} :: m in w.mail ==> MailOk(env, aw, m))
  }


  // ----- Raft chooses -----

  lemma SimGrows(env: Spec.Env, w: Store, xs: map<int, Aux>, aw: Spec.World, aw2: Spec.World)
    requires Sim(env, w, xs, aw) && Grows(aw, aw2) && aw2.clerks == aw.clerks
    requires forall g {:trigger aw2.groups[g]} :: g in aw.groups ==> aw2.groups[g].log == aw.groups[g].log
    ensures Sim(env, w, xs, aw2)
  {
    hide MailOk, Safety.Underway;
    forall m | m in w.mail
      ensures MailOk(env, aw2, m)
    {
      MailStill(env, aw, aw2, m);
    }
  }

  /** A step of one replica, of commands already handed to its group. */
  lemma RaftSim(env: Spec.Env, w: Store, w2: Store, g: int, s: int, a: Raft.Action, sent: set<Mail>,
                xs: map<int, Aux>, ws: seq<Spec.World>, acts: seq<Spec.Action>)
    returns (xs2: map<int, Aux>, ws2: seq<Spec.World>, more: seq<Spec.Action>)
    requires Trace(env, ws, acts) && Sim(env, w, xs, Now(ws)) && Steps(w, w2, g, s, a, sent)
    requires a.Propose? ==> a.command.GroupCmd? && a.command.cmd in Now(ws).groups[g].pending
    requires forall m {:trigger m in sent} :: m in sent ==> MailOk(env, Now(ws), m)
    ensures Trace(env, ws2, acts + more) && AllCommits(more) && ws <= ws2 && ws2 != []
    ensures Sim(env, w2, xs2, Now(ws2))
  {
    hide Sim, MailOk, Safety.Underway, Raft.NextBy, Trace, Inv.Inv;
    var hist := TraceInv(env, ws, acts);
    SimGroup(env, w, xs, Now(ws), g);
    var c2, x, group := w2.groups[g], xs[g], Now(ws).groups[g];
    var x2 := RaftMove(env, hist, g, w.groups[g], c2, s, a, x, Now(ws));
    xs2 := xs[g := x2];
    SaidPending(c2, x2, group.pending);
    var log := Commands(x2.chosen);
    assert forall k {:trigger log[k]} :: 0 <= k < |group.log| ==> log[k] == group.log[k];
    ws2, more := CatchUp(env, ws, acts, g, log);
    Rejoin(env, w, w2, g, sent, xs, x2, Now(ws), Now(ws2));
  }

  lemma SimGroup(env: Spec.Env, w: Store, xs: map<int, Aux>, aw: Spec.World, g: int)
    requires Sim(env, w, xs, aw) && g in w.groups
    ensures g in xs && g in aw.groups && Matched(env.n, g, w.groups[g], xs[g], aw.groups[g])
  {
    hide Matched, MailOk;
  }

  /** One group and its messages moved on. */
  lemma Rejoin(env: Spec.Env, w: Store, w2: Store, g: int, sent: set<Mail>, xs: map<int, Aux>, x2: Aux,
               aw: Spec.World, aw2: Spec.World)
    requires Sim(env, w, xs, aw) && OnlyLog(aw, aw2, g) && g in w2.groups
    requires w2 == w.(groups := w.groups[g := w2.groups[g]], mail := w.mail + sent)
    requires Matched(env.n, g, w2.groups[g], x2, aw2.groups[g])
    requires forall m {:trigger m in sent} :: m in sent ==> MailOk(env, aw, m)
    ensures Sim(env, w2, xs[g := x2], aw2)
  {
    hide Matched, MailOk;
    forall m | m in w2.mail
      ensures MailOk(env, aw2, m)
    {
      MailStill(env, aw, aw2, m);
    }
  }

  lemma RaftMove(env: Spec.Env, hist: Inv.History, g: int, c: Raft.Cluster, c2: Raft.Cluster, s: int, a: Raft.Action,
                 x: Aux, aw: Spec.World)
    returns (x2: Aux)
    requires Spec.EnvOk(env) && Inv.Inv(env, aw, hist) && g in aw.groups && Matched(env.n, g, c, x, aw.groups[g])
    requires Raft.NextBy(c, c2, s, a)
    requires a.Propose? ==> a.command.GroupCmd? && a.command.cmd in aw.groups[g].pending
    ensures Safety.Underway(c2, x2.h, x2.gs, x2.chosen) && c2.start == c.start && x.chosen <= x2.chosen
    ensures SaidIn(x2.h.said, aw.groups[g].pending)
  {
    hide Raft.NextBy, Safety.Underway, Inv.GroupOk, Raft.Tolerates, RaftInvariant.Extends;
    Safety.StepIndex(c, c2, s, a);
    assert Inv.GroupOk(env, hist, g, aw.groups[g]);
    Tolerant(env, hist, g, c, x, aw.groups[g], s);
    var h2, gs2, chosen2, t := Safety.UnderwayStep(c, c2, s, a, x.h, x.gs, x.chosen);
    x2 := Aux(h2, gs2, chosen2);
  }

  lemma SaidPending(c: Raft.Cluster, x: Aux, pending: set<Command>)
    requires Safety.Underway(c, x.h, x.gs, x.chosen) && SaidIn(x.h.said, pending)
    ensures forall k {:trigger x.chosen[k]} :: 0 <= k < |x.chosen| ==>
      x.chosen[k].command.GroupCmd? && x.chosen[k].command.cmd in pending
  {
    hide Safety.Underway;
    forall k | 0 <= k < |x.chosen|
      ensures x.chosen[k].command.GroupCmd? && x.chosen[k].command.cmd in pending
    {
      Safety.ChosenWasSaid(c, x.h, x.gs, x.chosen, k);
    }
  }

  // ----- Every step of the store -----

  /** What a replica has applied is one of its group's states. */
  lemma ReadsState(env: Spec.Env, w: Store, xs: map<int, Aux>, ws: seq<Spec.World>, acts: seq<Spec.Action>, g: int,
                   s: int)
    returns (k: nat)
    requires Trace(env, ws, acts) && Sim(env, w, xs, Now(ws)) && g in w.groups && 0 <= s < |w.groups[g].nodes|
    ensures Spec.ReadsAt(env, Now(ws), g, k)
    ensures w.groups[g].nodes[s].kv == GroupData(env.n, g, Spec.At(env, Now(ws), g, k))
    ensures k == RaftInvariant.AppliedTo(w.groups[g].nodes[s])
  {
    hide MailOk, Safety.Underway, Trace;
    var hist := TraceInv(env, ws, acts);
    assert Matched(env.n, g, w.groups[g], xs[g], Now(ws).groups[g]);
    assert Inv.GroupOk(env, hist, g, Now(ws).groups[g]);
    NodeState(env, hist, g, w.groups[g], xs[g], Now(ws).groups[g], s);
    k := RaftInvariant.AppliedTo(w.groups[g].nodes[s]);
  }

  /** A step of the store as its clerks see it. */
  function EventOf(a: Action): Clients.Event {
    match a
    case Issue(op) => Clients.Issue(op)
    case Accept(client, value) => Clients.Accept(client, value)
    case _ => Clients.Other
  }

  ghost predicate Follows(env: Spec.Env, a: Action, w2: Store, xs2: map<int, Aux>, ws: seq<Spec.World>,
                          acts: seq<Spec.Action>, ws2: seq<Spec.World>, more: seq<Spec.Action>)
  {
    && Trace(env, ws2, acts + more) && ws != [] && ws <= ws2
    && Sim(env, w2, xs2, Now(ws2)) && Clients.Fits(env, Now(ws), EventOf(a), more)
  }

  /** A message read off the present states. */
  lemma SendSim(env: Spec.Env, w: Store, a: Action, w2: Store, xs: map<int, Aux>, ws: seq<Spec.World>,
                acts: seq<Spec.Action>, m: Mail)
    requires Trace(env, ws, acts) && Sim(env, w, xs, Now(ws)) && Sends(w, w2, m) && MailOk(env, Now(ws), m)
    requires !a.Issue? && !a.Accept?
    ensures Follows(env, a, w2, xs, ws, acts, ws, [])
  {
    hide MailOk, Safety.Underway;
    assert acts + [] == acts;
  }

  /** The abstract action hands the command to group g. */
  ghost predicate Proposes(env: Spec.Env, aw: Spec.World, act: Spec.Action, g: int, cmd: Command) {
    && Spec.EnvOk(env) && Spec.Enabled(env, aw, act) && !act.Issue? && !act.Answer? && !act.Commit?
    && g in aw.groups && Spec.Step(env, aw, act) == Spec.Propose(aw, g, cmd)
  }

  /** A proposal, and the step of the peer it is handed to. */
  lemma ProposeSim(env: Spec.Env, w: Store, a: Action, w2: Store, xs: map<int, Aux>, ws: seq<Spec.World>,
                   acts: seq<Spec.Action>, g: int, s: int, cmd: Command, act: Spec.Action)
    returns (xs2: map<int, Aux>, ws2: seq<Spec.World>, more: seq<Spec.Action>)
    requires Trace(env, ws, acts) && Sim(env, w, xs, Now(ws)) && Hands(w, w2, g, s, cmd) && !a.Issue? && !a.Accept?
    requires Proposes(env, Now(ws), act, g, cmd)
    ensures Follows(env, a, w2, xs2, ws, acts, ws2, more)
  {
    hide Trace, Sim, Steps, Spec.Enabled, Spec.Step, MailOk;
    var ws1 := HandOver(env, w, xs, ws, acts, g, cmd, act);
    xs2, ws2, more := RaftSim(env, w, w2, g, s, Raft.Propose(GroupCmd(cmd)), {}, xs, ws1, acts + [act]);
    assert acts + [act] + more == acts + ([act] + more);
    more := [act] + more;
  }

  lemma HandOver(env: Spec.Env, w: Store, xs: map<int, Aux>, ws: seq<Spec.World>, acts: seq<Spec.Action>, g: int,
                 cmd: Command, act: Spec.Action)
    returns (ws1: seq<Spec.World>)
    requires Trace(env, ws, acts) && Sim(env, w, xs, Now(ws)) && Proposes(env, Now(ws), act, g, cmd)
    ensures Trace(env, ws1, acts + [act]) && ws != [] && ws <= ws1 && ws1 != []
    ensures Sim(env, w, xs, Now(ws1)) && g in Now(ws1).groups && cmd in Now(ws1).groups[g].pending
  {
    hide Sim, Trace, Spec.Enabled, Spec.Step;
    TraceLong(env, ws, acts);
    var acts1;
    ws1, acts1 := Extend(env, ws, acts, act);
    SimGrows(env, w, xs, Now(ws), Now(ws1));
  }

  lemma SimMail(env: Spec.Env, w: Store, xs: map<int, Aux>, aw: Spec.World, m: Mail)
    requires Sim(env, w, xs, aw) && m in w.mail
    ensures MailOk(env, aw, m)
  {
    hide Matched, MailOk;
  }

  lemma IssueSim(env: Spec.Env, w: Store, a: Action, w2: Store, xs: map<int, Aux>, ws: seq<Spec.World>,
                 acts: seq<Spec.Action>)
    returns (ws2: seq<Spec.World>, more: seq<Spec.Action>)
    requires Trace(env, ws, acts) && Sim(env, w, xs, Now(ws)) && a.Issue? && Next(env, w, a, w2)
    ensures Follows(env, a, w2, xs, ws, acts, ws2, more)
  {
    hide Safety.Underway, MailOk;
    more := [Spec.Issue(a.op)];
    var acts2;
    ws2, acts2 := Extend(env, ws, acts, more[0]);
    hide Trace;
    forall m | m in w2.mail
      ensures MailOk(env, Now(ws2), m)
    {
      MailStill(env, Now(ws), Now(ws2), m);
    }
  }

  lemma AcceptSim(env: Spec.Env, w: Store, a: Action, w2: Store, xs: map<int, Aux>, ws: seq<Spec.World>,
                  acts: seq<Spec.Action>)
    returns (ws2: seq<Spec.World>, more: seq<Spec.Action>)
    requires Trace(env, ws, acts) && Sim(env, w, xs, Now(ws)) && a.Accept? && Next(env, w, a, w2)
    ensures Follows(env, a, w2, xs, ws, acts, ws2, more)
  {
    hide Safety.Underway, Spec.Enabled, Clients.Accepts;
    var seqNum := w.clerks[a.client].answered + 1;
    assert MailOk(env, Now(ws), Reply(a.client, seqNum, a.value));
    var g, k: nat :| Replied(env, Now(ws), g, k, a.client, seqNum, a.value);
    hide Replied, MailOk;
    AnswerReady(env, ws, acts, g, k, a.client, a.value);
    more := [Spec.Answer(a.client, g, k)];
    var acts2;
    ws2, acts2 := Extend(env, ws, acts, more[0]);
    hide Trace;
    forall m | m in w2.mail
      ensures MailOk(env, Now(ws2), m)
    {
      MailStill(env, Now(ws), Now(ws2), m);
    }
  }

  /** What the service answers is what its group's state at that place of the log answers. */
  lemma RepliesOk(env: Spec.Env, w: Store, xs: map<int, Aux>, ws: seq<Spec.World>, acts: seq<Spec.Action>, g: int,
                  s: int, step: Raft.Action)
    requires Trace(env, ws, acts) && Sim(env, w, xs, Now(ws)) && g in w.groups && 0 <= s < |w.groups[g].nodes|
    ensures forall m {:trigger m in Replies(env.n, w.groups[g].nodes[s], step)} ::
      m in Replies(env.n, w.groups[g].nodes[s], step) ==> MailOk(env, Now(ws), m)
  {
    hide Safety.Underway;
    var node, x, group := w.groups[g].nodes[s], xs[g], Now(ws).groups[g];
    if Answers(env.n, node, step) {
      var k := ReadsState(env, w, xs, ws, acts, g, s);
      assert Matched(env.n, g, w.groups[g], x, group);
      Safety.HandIsChosen(w.groups[g], x.h, x.gs, x.chosen, s);
      var op := node.hand.msg.command.cmd.op;
      assert GroupCmd(group.log[k]) == node.hand.msg.command;
      var value := if op.optype == Get then Value(node.kv.group.kv, op.key) else op.value;
      assert Replied(env, Now(ws), g, k, op.clientId, op.seqNum, value);
    }
  }

  lemma RequestReady(env: Spec.Env, aw: Spec.World, g: int, at: nat, op: Op)
    requires Spec.EnvOk(env) && Spec.Issued(aw, op) && Spec.ReadsAt(env, aw, g, at)
    requires Spec.At(env, aw, g, at).config.shards[KeyShard(env.n, op.key)] == g
    ensures Proposes(env, aw, Spec.Request(g, at, op), g, Operation(op))
  {
  }

  lemma NudgeReady(env: Spec.Env, aw: Spec.World, g: int)
    requires Spec.EnvOk(env) && g in aw.groups
    ensures Proposes(env, aw, Spec.Nudge(g), g, NoOperation)
  {
  }

  lemma FetchReady(env: Spec.Env, aw: Spec.World, g: int, at: nat, num: nat)
    requires Spec.EnvOk(env) && FoundAt(env, aw, g, at, num)
    ensures Proposes(env, aw, Spec.Fetch(g, at), g, Configure(env.configs[num]))
  {
  }

  lemma PullReady(env: Spec.Env, aw: Spec.World, g: int, at: nat, now: nat, h: int, theirs: nat, num: nat, i: nat,
                  data: map<string, string>, seqs: map<int, int>)
    requires Spec.EnvOk(env) && NumberAt(env, aw, g, at, num) && GivesAt(env, aw, h, theirs, num, i, data, seqs)
    requires Spec.ReadsAt(env, aw, g, now) && Spec.At(env, aw, g, now).config.num == num
    ensures Proposes(env, aw, Spec.Pull(g, at, now, h, theirs, i), g, Merge(num, i, data, seqs))
  {
  }

  lemma CheckReady(env: Spec.Env, aw: Spec.World, h: int, listed: nat, at: nat, now: nat, g: int, k: nat, num: nat,
                   i: nat, theirs: nat)
    requires Spec.EnvOk(env) && WaitsAt(env, aw, h, listed, at, g, num, i) && HasAt(env, aw, g, k, num, i, theirs)
    requires Spec.ReadsAt(env, aw, h, now) && theirs >= Spec.At(env, aw, h, now).config.num
    ensures Proposes(env, aw, Spec.Check(h, listed, at, now, g, k, i), h, Confirm(num, i))
  {
  }

  lemma ServeSim(env: Spec.Env, w: Store, a: Action, w2: Store, xs: map<int, Aux>, ws: seq<Spec.World>,
                 acts: seq<Spec.Action>)
    returns (xs2: map<int, Aux>, ws2: seq<Spec.World>, more: seq<Spec.Action>)
    requires Trace(env, ws, acts) && Sim(env, w, xs, Now(ws)) && Next(env, w, a, w2)
    requires a.Serve? || a.Nudge? || a.Adopt?
    ensures Follows(env, a, w2, xs2, ws, acts, ws2, more)
  {
    hide Trace, Sim, Follows, Raft.NextBy, Proposes, FoundAt;
    TraceLong(env, ws, acts);
    match a
    case Serve(g, s, op) =>
      var k := ReadsState(env, w, xs, ws, acts, g, s);
      SimKeys(env, w, xs, Now(ws));
      RequestReady(env, Now(ws), g, k, op);
      xs2, ws2, more := ProposeSim(env, w, a, w2, xs, ws, acts, g, s, Operation(op), Spec.Request(g, k, op));
    case Nudge(g, s) =>
      SimKeys(env, w, xs, Now(ws));
      NudgeReady(env, Now(ws), g);
      xs2, ws2, more := ProposeSim(env, w, a, w2, xs, ws, acts, g, s, NoOperation, Spec.Nudge(g));
    case Adopt(g, s, num) =>
      SimMail(env, w, xs, Now(ws), Found(g, num));
      var at: nat :| FoundAt(env, Now(ws), g, at, num);
      FetchReady(env, Now(ws), g, at, num);
      xs2, ws2, more := ProposeSim(env, w, a, w2, xs, ws, acts, g, s, Configure(env.configs[num]), Spec.Fetch(g, at));
  }

  lemma SimKeys(env: Spec.Env, w: Store, xs: map<int, Aux>, aw: Spec.World)
    requires Sim(env, w, xs, aw)
    ensures w.groups.Keys == aw.groups.Keys && w.clerks == aw.clerks
  {
  }

  lemma TakeSim(env: Spec.Env, w: Store, a: Action, w2: Store, xs: map<int, Aux>, ws: seq<Spec.World>,
                acts: seq<Spec.Action>)
    returns (xs2: map<int, Aux>, ws2: seq<Spec.World>, more: seq<Spec.Action>)
    requires Trace(env, ws, acts) && Sim(env, w, xs, Now(ws)) && Next(env, w, a, w2) && a.TakePart?
    ensures Follows(env, a, w2, xs2, ws, acts, ws2, more)
  {
    hide Trace, Sim, Follows, Raft.NextBy, Proposes, NumberAt, GivesAt;
    TraceLong(env, ws, acts);
    var aw, g, s, part := Now(ws), a.g, a.s, a.part;
    var now := ReadsState(env, w, xs, ws, acts, g, s);
    SimMail(env, w, xs, aw, part);
    var h, at: nat, theirs: nat :| NumberAt(env, aw, g, at, part.num)
      && GivesAt(env, aw, h, theirs, part.num, part.shard, part.data, part.seqs);
    PullReady(env, aw, g, at, now, h, theirs, part.num, part.shard, part.data, part.seqs);
    xs2, ws2, more := ProposeSim(env, w, a, w2, xs, ws, acts, g, s, Merge(part.num, part.shard, part.data, part.seqs),
                                 Spec.Pull(g, at, now, h, theirs, part.shard));
  }

  lemma DropSim(env: Spec.Env, w: Store, a: Action, w2: Store, xs: map<int, Aux>, ws: seq<Spec.World>,
                acts: seq<Spec.Action>)
    returns (xs2: map<int, Aux>, ws2: seq<Spec.World>, more: seq<Spec.Action>)
    requires Trace(env, ws, acts) && Sim(env, w, xs, Now(ws)) && Next(env, w, a, w2) && a.DropPart?
    ensures Follows(env, a, w2, xs2, ws, acts, ws2, more)
  {
    hide Trace, Sim, Follows, Raft.NextBy, Proposes, WaitsAt, HasAt;
    TraceLong(env, ws, acts);
    var aw, h, s, num, i, theirs := Now(ws), a.h, a.s, a.num, a.shard, a.theirs;
    var now := ReadsState(env, w, xs, ws, acts, h, s);
    SimMail(env, w, xs, aw, DoneSaid(h, num, i, theirs));
    var g, listed: nat, at: nat, k: nat :|
      WaitsAt(env, aw, h, listed, at, g, num, i) && HasAt(env, aw, g, k, num, i, theirs);
    CheckReady(env, aw, h, listed, at, now, g, k, num, i, theirs);
    xs2, ws2, more := ProposeSim(env, w, a, w2, xs, ws, acts, h, s, Confirm(num, i),
                                 Spec.Check(h, listed, at, now, g, k, i));
  }

  lemma FindSim(env: Spec.Env, w: Store, a: Action, w2: Store, xs: map<int, Aux>, ws: seq<Spec.World>,
                acts: seq<Spec.Action>)
    requires Trace(env, ws, acts) && Sim(env, w, xs, Now(ws)) && Next(env, w, a, w2)
    requires a.Find? || a.ListPart?
    ensures Follows(env, a, w2, xs, ws, acts, ws, [])
  {
    hide Trace, Sim, Follows, Spec.Run;
    TraceLong(env, ws, acts);
    var aw := Now(ws);
    match a
    case Find(g, s) =>
      var k := ReadsState(env, w, xs, ws, acts, g, s);
      var num := Spec.At(env, aw, g, k).config.num + 1;
      assert FoundAt(env, aw, g, k, num);
      SendSim(env, w, a, w2, xs, ws, acts, Found(g, num));
    case ListPart(g, s, i) =>
      var k := ReadsState(env, w, xs, ws, acts, g, s);
      SendSim(env, w, a, w2, xs, ws, acts, Wanted(g, Spec.At(env, aw, g, k).prev.shards[i], i));
  }

  lemma AskSim(env: Spec.Env, w: Store, a: Action, w2: Store, xs: map<int, Aux>, ws: seq<Spec.World>,
               acts: seq<Spec.Action>)
    requires Trace(env, ws, acts) && Sim(env, w, xs, Now(ws)) && Next(env, w, a, w2)
    requires a.AskPart? || a.GivePart?
    ensures Follows(env, a, w2, xs, ws, acts, ws, [])
  {
    hide Trace, Sim, Follows, Spec.Run;
    TraceLong(env, ws, acts);
    var aw := Now(ws);
    match a
    case AskPart(g, s, h, i) =>
      var k := ReadsState(env, w, xs, ws, acts, g, s);
      assert NumberAt(env, aw, g, k, Spec.At(env, aw, g, k).config.num);
      SendSim(env, w, a, w2, xs, ws, acts, PartAsked(g, h, Spec.At(env, aw, g, k).config.num, i));
    case GivePart(h, s, g, num, i) =>
      var k := ReadsState(env, w, xs, ws, acts, h, s);
      SimMail(env, w, xs, aw, PartAsked(g, h, num, i));
      var at: nat :| NumberAt(env, aw, g, at, num);
      var mine := Spec.At(env, aw, h, k);
      assert GivesAt(env, aw, h, k, num, i, Part(env.n, mine.kv, i), mine.clientSeq);
      SendSim(env, w, a, w2, xs, ws, acts, PartGiven(g, num, i, Part(env.n, mine.kv, i), mine.clientSeq));
  }

  lemma ConfirmSim(env: Spec.Env, w: Store, a: Action, w2: Store, xs: map<int, Aux>, ws: seq<Spec.World>,
                   acts: seq<Spec.Action>)
    requires Trace(env, ws, acts) && Sim(env, w, xs, Now(ws)) && Next(env, w, a, w2)
    requires a.ListDone? || a.AskDone?
    ensures Follows(env, a, w2, xs, ws, acts, ws, [])
  {
    hide Trace, Sim, Follows, Spec.Run;
    TraceLong(env, ws, acts);
    var aw := Now(ws);
    match a
    case ListDone(h, s, i) =>
      var k := ReadsState(env, w, xs, ws, acts, h, s);
      var g := Spec.At(env, aw, h, k).config.shards[i];
      assert OwesAt(env, aw, h, k, g, i);
      SendSim(env, w, a, w2, xs, ws, acts, Owed(h, g, i));
    case AskDone(h, s, g, i) =>
      var k := ReadsState(env, w, xs, ws, acts, h, s);
      SimMail(env, w, xs, aw, Owed(h, g, i));
      var listed: nat :| OwesAt(env, aw, h, listed, g, i);
      var num := Spec.At(env, aw, h, k).config.num;
      assert WaitsAt(env, aw, h, listed, k, g, num, i);
      SendSim(env, w, a, w2, xs, ws, acts, DoneAsked(h, g, num, i));
  }

  lemma SaySim(env: Spec.Env, w: Store, a: Action, w2: Store, xs: map<int, Aux>, ws: seq<Spec.World>,
               acts: seq<Spec.Action>)
    requires Trace(env, ws, acts) && Sim(env, w, xs, Now(ws)) && Next(env, w, a, w2)
    requires a.SayDone?
    ensures Follows(env, a, w2, xs, ws, acts, ws, [])
  {
    hide Trace, Sim, Follows, Spec.Run;
    TraceLong(env, ws, acts);
    var aw := Now(ws);
    var SayDone(g, s, h, num, i) := a;
    var k := ReadsState(env, w, xs, ws, acts, g, s);
    SimMail(env, w, xs, aw, DoneAsked(h, g, num, i));
    var listed: nat, at: nat :| WaitsAt(env, aw, h, listed, at, g, num, i);
    var mine := Spec.At(env, aw, g, k);
    assert HasAt(env, aw, g, k, num, i, mine.config.num);
    SendSim(env, w, a, w2, xs, ws, acts, DoneSaid(h, num, i, mine.config.num));
  }

  lemma PeerSim(env: Spec.Env, w: Store, a: Action, w2: Store, xs: map<int, Aux>, ws: seq<Spec.World>,
                acts: seq<Spec.Action>)
    returns (xs2: map<int, Aux>, ws2: seq<Spec.World>, more: seq<Spec.Action>)
    requires Trace(env, ws, acts) && Sim(env, w, xs, Now(ws)) && Next(env, w, a, w2) && a.Peer?
    ensures Follows(env, a, w2, xs2, ws, acts, ws2, more)
  {
    hide Safety.Underway, MailOk, Raft.NextBy, Replies, Sim;
    RepliesOk(env, w, xs, ws, acts, a.g, a.s, a.a);
    xs2, ws2, more := RaftSim(env, w, w2, a.g, a.s, a.a, Replies(env.n, w.groups[a.g].nodes[a.s], a.a), xs, ws, acts);
  }

  lemma StaySim(env: Spec.Env, w: Store, a: Action, w2: Store, xs: map<int, Aux>, ws: seq<Spec.World>,
                acts: seq<Spec.Action>)
    requires Trace(env, ws, acts) && Sim(env, w, xs, Now(ws)) && Next(env, w, a, w2) && a.Elsewhere?
    ensures Follows(env, a, w2, xs, ws, acts, ws, [])
  {
    hide Sim;
    assert acts + [] == acts;
  }

  /** A step of the store is some steps of the system of committed logs. */
  lemma StepSim(env: Spec.Env, w: Store, a: Action, w2: Store, xs: map<int, Aux>, ws: seq<Spec.World>,
                acts: seq<Spec.Action>)
    returns (xs2: map<int, Aux>, ws2: seq<Spec.World>, more: seq<Spec.Action>)
    requires Trace(env, ws, acts) && Sim(env, w, xs, Now(ws)) && Next(env, w, a, w2)
    ensures Follows(env, a, w2, xs2, ws, acts, ws2, more)
  {
    hide Sim, Follows, Trace, Next;
    xs2, ws2, more := xs, ws, [];
    match a
    case Elsewhere => StaySim(env, w, a, w2, xs, ws, acts);
    case Issue(_) => ws2, more := IssueSim(env, w, a, w2, xs, ws, acts);
    case Accept(_, _) => ws2, more := AcceptSim(env, w, a, w2, xs, ws, acts);
    case Peer(_, _, _) => xs2, ws2, more := PeerSim(env, w, a, w2, xs, ws, acts);
    case Serve(_, _, _) => xs2, ws2, more := ServeSim(env, w, a, w2, xs, ws, acts);
    case Nudge(_, _) => xs2, ws2, more := ServeSim(env, w, a, w2, xs, ws, acts);
    case Adopt(_, _, _) => xs2, ws2, more := ServeSim(env, w, a, w2, xs, ws, acts);
    case TakePart(_, _, _) => xs2, ws2, more := TakeSim(env, w, a, w2, xs, ws, acts);
    case DropPart(_, _, _, _, _) => xs2, ws2, more := DropSim(env, w, a, w2, xs, ws, acts);
    case ListDone(_, _, _) => ConfirmSim(env, w, a, w2, xs, ws, acts);
    case AskDone(_, _, _, _) => ConfirmSim(env, w, a, w2, xs, ws, acts);
    case SayDone(_, _, _, _, _) => SaySim(env, w, a, w2, xs, ws, acts);
    case Find(_, _) => FindSim(env, w, a, w2, xs, ws, acts);
    case ListPart(_, _, _) => FindSim(env, w, a, w2, xs, ws, acts);
    case _ => AskSim(env, w, a, w2, xs, ws, acts);
  }

  // ----- Whole runs -----

  lemma InitSim(env: Spec.Env, w: Store) returns (xs: map<int, Aux>, aw: Spec.World)
    requires Spec.EnvOk(env) && Init(env, w)
    ensures Trace(env, [aw], []) && Sim(env, w, xs, aw)
  {
    hide Safety.Underway, Raft.Init;
    aw := Spec.World(map g | g in w.groups :: Spec.Group([], [Start(env.n)], {}), map[]);
    xs := map g | g in w.groups ::
      Aux(RaftHistory.NoHistory(w.groups[g].start), Safety.NoShadows(w.groups[g]), []);
    forall g | g in xs
      ensures Matched(env.n, g, w.groups[g], xs[g], aw.groups[g])
    {
      Safety.UnderwayInit(w.groups[g]);
    }
  }

  /** A replica of a group: its committed entries are the group's log, its state one of the group's states. */
  ghost predicate ReplicaOf(n: nat, g: int, node: Raft.Node, group: Spec.Group) {
    var k, rf := RaftInvariant.AppliedTo(node), node.rf;
    && 0 <= k < |group.states| && node.kv == GroupData(n, g, group.states[k])
    && 0 <= rf.lastIncludedIndex <= k <= rf.commitIndex <= |group.log| && rf.commitIndex <= RaftServer.LastLogIndex(rf)
    && forall x {:trigger group.log[x]} :: rf.lastIncludedIndex <= x < rf.commitIndex ==>
         rf.log[x + 1 - rf.lastIncludedIndex].command == GroupCmd(group.log[x])
  }

  /** The world of committed logs shows what the store has come to. */
  ghost predicate Shows(n: nat, w: Store, aw: Spec.World) {
    && w.groups.Keys == aw.groups.Keys && w.clerks == aw.clerks
    && forall g, s {:trigger w.groups[g].nodes[s]} :: g in w.groups && 0 <= s < |w.groups[g].nodes| ==>
         ReplicaOf(n, g, w.groups[g].nodes[s], aw.groups[g])
  }

  lemma SimShows(env: Spec.Env, w: Store, xs: map<int, Aux>, ws: seq<Spec.World>, acts: seq<Spec.Action>)
    requires Trace(env, ws, acts) && Sim(env, w, xs, Now(ws))
    ensures Shows(env.n, w, Now(ws))
  {
    hide MailOk, Safety.Underway, ReplicaOf;
    forall g, s | g in w.groups && 0 <= s < |w.groups[g].nodes|
      ensures ReplicaOf(env.n, g, w.groups[g].nodes[s], Now(ws).groups[g])
    {
      assert Matched(env.n, g, w.groups[g], xs[g], Now(ws).groups[g]);
      var k := ReadsState(env, w, xs, ws, acts, g, s);
      IsReplica(env.n, g, w.groups[g], xs[g], Now(ws).groups[g], s, k);
    }
  }

  lemma IsReplica(n: nat, g: int, c: Raft.Cluster, x: Aux, group: Spec.Group, s: int, k: nat)
    requires Matched(n, g, c, x, group) && 0 <= s < |c.nodes| && k == RaftInvariant.AppliedTo(c.nodes[s])
    requires k < |group.states| && c.nodes[s].kv == GroupData(n, g, group.states[k])
    ensures ReplicaOf(n, g, c.nodes[s], group)
  {
    hide Safety.Underway;
    Safety.HandIsChosen(c, x.h, x.gs, x.chosen, s);
    var rf := c.nodes[s].rf;
    forall y | rf.lastIncludedIndex <= y < rf.commitIndex
      ensures rf.log[y + 1 - rf.lastIncludedIndex].command == GroupCmd(group.log[y])
    {
      assert x.chosen[y].command == GroupCmd(group.log[y]);
    }
  }

  ghost function Events(acts: seq<Action>): seq<Clients.Event> {
    seq(|acts|, k requires 0 <= k < |acts| => EventOf(acts[k]))
  }

  ghost function ClerksIn(ws: seq<Store>): seq<Clients.Clerks> {
    seq(|ws|, k requires 0 <= k < |ws| => ws[k].clerks)
  }

  /** `at` says where the abstract run is at each moment of the store's. */
  ghost predicate Abstracts(env: Spec.Env, ws: seq<Store>, acts: seq<Action>, aws: seq<Spec.World>,
                            aacts: seq<Spec.Action>, at: seq<nat>)
  {
    && Clients.Tracks(env, Events(acts), ClerksIn(ws), aws, aacts, at) && |ws| == |at|
    && forall k {:trigger ws[k]} :: 0 <= k < |ws| ==> Shows(env.n, ws[k], aws[at[k]])
  }

  /** The store over Raft refines the system of committed logs: every run of it is one of theirs. */
  lemma {:induction false} Refines(env: Spec.Env, ws: seq<Store>, acts: seq<Action>)
    returns (xs: map<int, Aux>, aws: seq<Spec.World>, aacts: seq<Spec.Action>, at: seq<nat>)
    requires Spec.EnvOk(env) && Run(env, ws, acts)
    ensures Abstracts(env, ws, acts, aws, aacts, at) && aws != [] && Sim(env, ws[|acts|], xs, Now(aws))
  {
    var n := |acts|;
    if n == 0 {
      var aw;
      xs, aw := InitSim(env, ws[0]);
      aws, aacts, at := [aw], [], [0];
      SimShows(env, ws[0], xs, aws, aacts);
    } else {
      var more;
      assert Run(env, ws[..n], acts[..n - 1]) by { RunBefore(env, ws, acts); }
      hide Sim, Init, Abstracts, Trace;
      xs, aws, aacts, at := Refines(env, ws[..n], acts[..n - 1]);
      assert Next(env, ws[n - 1], acts[n - 1], ws[n]);
      hide Next;
      AbstractsTrace(env, ws[..n], acts[..n - 1], aws, aacts, at);
      var aws2;
      xs, aws2, more := StepSim(env, ws[n - 1], acts[n - 1], ws[n], xs, aws, aacts);
      AddStep(env, ws, acts, xs, aws, aacts, at, aws2, more);
      aws, aacts, at := aws2, aacts + more, at + [|aacts + more|];
    }
  }

  lemma RunBefore(env: Spec.Env, ws: seq<Store>, acts: seq<Action>)
    requires Spec.EnvOk(env) && Run(env, ws, acts) && acts != []
    ensures Run(env, ws[..|acts|], acts[..|acts| - 1])
  {
    hide Next, Init;
    var n := |acts|;
    forall t, u | 0 <= t && u == t + 1 <= n - 1
      ensures Next(env, ws[..n][t], acts[..n - 1][t], ws[..n][u])
    {
      assert Next(env, ws[t], acts[t], ws[u]);
    }
  }

  lemma AbstractsTrace(env: Spec.Env, ws: seq<Store>, acts: seq<Action>, aws: seq<Spec.World>,
                       aacts: seq<Spec.Action>, at: seq<nat>)
    requires Abstracts(env, ws, acts, aws, aacts, at)
    ensures Trace(env, aws, aacts)
  {
  }

  lemma AddStep(env: Spec.Env, ws: seq<Store>, acts: seq<Action>, xs: map<int, Aux>, aws: seq<Spec.World>,
                aacts: seq<Spec.Action>, at: seq<nat>, aws2: seq<Spec.World>, more: seq<Spec.Action>)
    requires |ws| == |acts| + 1 && acts != []
    requires Abstracts(env, ws[..|acts|], acts[..|acts| - 1], aws, aacts, at)
    requires Follows(env, acts[|acts| - 1], ws[|acts|], xs, aws, aacts, aws2, more)
    ensures aws2 != [] && Sim(env, ws[|acts|], xs, Now(aws2))
    ensures Abstracts(env, ws, acts, aws2, aacts + more, at + [|aacts + more|])
  {
    var n, all, at2 := |acts|, aacts + more, at + [|aacts + more|];
    SimShows(env, ws[n], xs, aws2, all);
    hide Sim, Shows, Clients.Fits, Spec.Next, Spec.Init;
    var events, clerks := Events(acts[..n - 1]), ClerksIn(ws[..n]);
    assert Events(acts) == events + [EventOf(acts[n - 1])] && ClerksIn(ws) == clerks + [ws[n].clerks];
    ShowsClerks(env.n, ws[n], Now(aws2));
    Clients.TracksMore(env, events, clerks, aws, aacts, at, EventOf(acts[n - 1]), ws[n].clerks, aws2, more);
    forall k | 0 <= k < |ws|
      ensures Shows(env.n, ws[k], aws2[at2[k]])
    {
      if k < n { assert ws[..n][k] == ws[k] && aws2[at[k]] == aws[at[k]]; }
    }
  }

  lemma ShowsClerks(n: nat, w: Store, aw: Spec.World)
    requires Shows(n, w, aw)
    ensures w.clerks == aw.clerks
  {
  }

  /** No replica of any group ever has its state changed by a command that comes too late. */
  lemma ReplicasTolerate(env: Spec.Env, ws: seq<Store>, acts: seq<Action>, g: int, s: int)
    requires Spec.EnvOk(env) && Run(env, ws, acts)
    requires g in ws[|acts|].groups && 0 <= s < |ws[|acts|].groups[g].nodes|
    ensures Raft.Tolerates(ws[|acts|].groups[g].nodes[s])
  {
    hide Run, Shows, Safety.Underway, Raft.Tolerates, MailOk;
    var xs, aws, aacts, at := Refines(env, ws, acts);
    AbstractsTrace(env, ws, acts, aws, aacts, at);
    hide Abstracts;
    var hist := TraceInv(env, aws, aacts);
    assert Inv.GroupOk(env, hist, g, Now(aws).groups[g]);
    assert Matched(env.n, g, ws[|acts|].groups[g], xs[g], Now(aws).groups[g]);
    Tolerant(env, hist, g, ws[|acts|].groups[g], xs[g], Now(aws).groups[g], s);
  }

  /** A step moves the cluster of one group at most, by one step of Raft. */
  lemma GroupMoves(env: Spec.Env, w: Store, a: Action, w2: Store, g: int)
    requires Spec.EnvOk(env) && Next(env, w, a, w2) && g in w.groups
    ensures g in w2.groups && (w2.groups[g] == w.groups[g] || Raft.Next(w.groups[g], w2.groups[g]))
  {
    hide Raft.NextBy;
  }

  /** The runs of the store are, group by group, runs of Raft: whatever holds of those holds here. */
  lemma {:induction false} GroupsRunRaft(env: Spec.Env, ws: seq<Store>, acts: seq<Action>, g: int)
    returns (run: seq<Raft.Cluster>, at: seq<nat>)
    requires Spec.EnvOk(env) && Run(env, ws, acts) && g in ws[0].groups
    ensures Raft.ServedRun(run) && |at| == |ws| && at[|acts|] == |run| - 1
    ensures forall k {:trigger ws[k]} :: 0 <= k < |ws| ==>
      g in ws[k].groups && at[k] < |run| && run[at[k]] == ws[k].groups[g]
  {
    hide Raft.Tolerates, Raft.Next, Raft.Init, Next;
    var n := |acts|;
    if n == 0 {
      run, at := [ws[0].groups[g]], [0];
      forall s | 0 <= s < |run[0].nodes|
        ensures Raft.Tolerates(run[0].nodes[s])
      {
        ReplicasTolerate(env, ws, acts, g, s);
      }
    } else {
      RunBefore(env, ws, acts);
      run, at := GroupsRunRaft(env, ws[..n], acts[..n - 1], g);
      assert ws[..n][n - 1] == ws[n - 1] && Next(env, ws[n - 1], acts[n - 1], ws[n]);
      GroupMoves(env, ws[n - 1], acts[n - 1], ws[n], g);
      if ws[n].groups[g] != ws[n - 1].groups[g] {
        forall s | 0 <= s < |ws[n].groups[g].nodes|
          ensures Raft.Tolerates(ws[n].groups[g].nodes[s])
        {
          ReplicasTolerate(env, ws, acts, g, s);
        }
        run := Longer(run, ws[n].groups[g]);
      }
      at := at + [|run| - 1];
      hide Run, Raft.ServedRun;
      forall k | 0 <= k < |ws|
        ensures g in ws[k].groups && at[k] < |run| && run[at[k]] == ws[k].groups[g]
      {
        if k < n { assert ws[..n][k] == ws[k]; }
      }
    }
  }

  lemma Longer(run: seq<Raft.Cluster>, c: Raft.Cluster) returns (run2: seq<Raft.Cluster>)
    requires Raft.ServedRun(run) && Raft.Next(run[|run| - 1], c)
    requires forall s {:trigger c.nodes[s]} :: 0 <= s < |c.nodes| ==> Raft.Tolerates(c.nodes[s])
    ensures run2 == run + [c] && Raft.ServedRun(run2)
  {
    hide Raft.Tolerates, Raft.Next, Raft.Init;
    run2 := run + [c];
    forall i | 0 <= i < |run2| - 1
      ensures Raft.Next(run2[i], run2[i + 1])
    {
      if i < |run| - 1 { assert Raft.Next(run[i], run[i + 1]); }
    }
    forall i, s | 0 <= i < |run2| && 0 <= s < |run2[i].nodes|
      ensures Raft.Tolerates(run2[i].nodes[s])
    {
      if i < |run| { assert Raft.Tolerates(run[i].nodes[s]); }
    }
  }

  /**
   The sharded store over Raft is linearizable: in every run, with lost, repeated and reordered messages,
   crashes, snapshots and migrating shards, the replies its clerks accepted are explained by one store.
   */
  lemma ShardedStoreIsLinearizable(env: Spec.Env, ws: seq<Store>, acts: seq<Action>)
    returns (h: KvModel.History, ops: seq<Op>)
    requires Spec.EnvOk(env) && Run(env, ws, acts)
    ensures Time.Timed(h) && Linearizable(KvModel.STORE_MODEL, Time.ProblemOfHistory(h))
    ensures |ops| == |h| && forall i {:trigger h[i]} :: 0 <= i < |h| ==>
      Clients.Records(Events(acts), ClerksIn(ws), h[i], ops[i])
    ensures forall i, j {:trigger ops[i], ops[j]} :: 0 <= i < j < |ops| ==> ops[i] != ops[j]
    ensures forall r {:trigger acts[r]} :: 0 <= r < |acts| && acts[r].Accept? ==>
      exists i {:trigger h[i]} :: 0 <= i < |h| && h[i].ret == r
  {
    var xs, aws, aacts, at := Refines(env, ws, acts);
    hide Run, Sim, Clients.Tracks, Shows, Clients.Records, Linearizable, Time.ProblemOfHistory;
    h, ops := Clients.OneStoreSeen(env, Events(acts), ClerksIn(ws), aws, aacts, at);
    forall r | 0 <= r < |acts| && acts[r].Accept?
      ensures exists i :: 0 <= i < |h| && h[i].ret == r
    {
      assert Events(acts)[r].Accept?;
    }
  }
}
