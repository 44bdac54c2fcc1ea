/** The sharded store is one store: what holds in every run. */
module ShardSafety {
  import opened KvService
  import opened ShardService
  import opened ShardSystem
  import opened ShardInvariant
  import opened ShardFrame
  import opened ShardSteps

  // ----- Proposals -----

  /** Nothing was committed and no operation forgotten. */
  ghost predicate SameLogs(w: World, w2: World) {
    && w2.groups.Keys == w.groups.Keys
    && (forall g {:trigger w2.groups[g]} :: g in w.groups ==>
      w2.groups[g].states == w.groups[g].states && w2.groups[g].log == w.groups[g].log)
    && (forall op {:trigger Issued(w2, op)} :: Issued(w, op) ==> Issued(w2, op))
  }

  lemma TokenSame(env: Env, w: World, w2: World, h: History, i: nat)
    requires EnvOk(env) && HistoryShaped(env, h) && i < env.n && TokenOk(env, w, h, i) && SameLogs(w, w2)
    ensures TokenOk(env, w2, h, i)
  {
    forall c: nat | 1 <= c <= h.token[i]
      ensures Held(env, w2, c, i)
    {
      HeldStill(env, w, w2, c, i);
    }
  }

  lemma CommandSame(env: Env, w: World, w2: World, h: History, g: int, cmd: Command)
    requires EnvOk(env) && HistoryShaped(env, h) && CommandOk(env, w, h, g, cmd) && SameLogs(w, w2)
    ensures CommandOk(env, w2, h, g, cmd)
  {
    hide Sound, Covers;
  }

  /** A world with the same logs, sound clerks and sound proposals is as good. */
  lemma SameKeeps(env: Env, w: World, w2: World, h: History)
    requires EnvOk(env) && Inv(env, w, h) && SameLogs(w, w2)
    requires forall c {:trigger w2.clerks[c]} :: c in w2.clerks ==> ClerkOk(h, c, w2.clerks[c])
    requires forall g, cmd {:trigger cmd in w2.groups[g].pending} :: g in w.groups && cmd in w2.groups[g].pending ==>
      CommandOk(env, w, h, g, cmd)
    ensures Inv(env, w2, h)
  {
    hide GroupOk, TokenOk, CommandOk, ClerkOk, Issued;
    forall g | g in w2.groups
      ensures GroupOk(env, h, g, w2.groups[g])
    {
      assert GroupOk(env, h, g, w.groups[g]);
      SameRun(env, h, g, w.groups[g], w2.groups[g]);
    }
    forall i | 0 <= i < env.n
      ensures TokenOk(env, w2, h, i)
    {
      assert TokenOk(env, w, h, i);
      TokenSame(env, w, w2, h, i);
    }
    forall g, cmd | g in w2.groups && cmd in w2.groups[g].pending
      ensures CommandOk(env, w2, h, g, cmd)
    {
      CommandSame(env, w, w2, h, g, cmd);
    }
    forall op | op in h.executed
      ensures Issued(w2, op)
    {
      assert Issued(w, op);
    }
  }

  lemma ProposeKeeps(env: Env, w: World, h: History, g: int, cmd: Command)
    requires EnvOk(env) && Inv(env, w, h) && g in w.groups && CommandOk(env, w, h, g, cmd)
    ensures Inv(env, Propose(w, g, cmd), h)
  {
    hide GroupOk, TokenOk, CommandOk, ClerkOk;
    var w2 := Propose(w, g, cmd);
    forall g2, c | g2 in w.groups && c in w2.groups[g2].pending
      ensures CommandOk(env, w, h, g2, c)
    {
      assert c in w.groups[g2].pending || (g2 == g && c == cmd);
    }
    SameKeeps(env, w, w2, h);
  }

  lemma SameRun(env: Env, h: History, g: int, group: Group, group2: Group)
    requires EnvOk(env) && HistoryShaped(env, h) && GroupOk(env, h, g, group) && group2.log == group.log
      && group2.states == group.states
    ensures GroupOk(env, h, g, group2)
  {
    assert Base(env, h, Last(group));
    hide StateOk, LatestOk, EntryOk;
    forall i | 0 <= i < env.n
      ensures LatestOk(env, h, Last(group2), i)
    {
      assert LatestOk(env, h, Last(group), i);
    }
  }

  lemma FetchOk(env: Env, w: World, h: History, g: int, at: nat)
    requires EnvOk(env) && Inv(env, w, h) && Enabled(env, w, Fetch(g, at))
    ensures CommandOk(env, w, h, g, Configure(env.configs[At(env, w, g, at).config.num + 1]))
  {
    var group := w.groups[g];
    assert GroupOk(env, h, g, group);
    ConfigsGrow(env, h, g, group, at, |group.states| - 1);
    if Ready(group.states[at]) && Last(group).config.num == group.states[at].config.num {
      StaysReady(env, h, g, group, at, |group.states| - 1);
    }
  }

  lemma PullOk(env: Env, w: World, h: History, g: int, at: nat, now: nat, other: int, theirs: nat, i: nat)
    requires EnvOk(env) && Inv(env, w, h) && Enabled(env, w, Pull(g, at, now, other, theirs, i))
    ensures CommandOk(env, w, h, g, PartOf(env, At(env, w, other, theirs), At(env, w, g, at).config.num, i))
  {
    InGroup(env, w, h, g, at, i);
    InGroup(env, w, h, other, theirs, i);
    ConfigsGrow(env, h, other, w.groups[other], theirs, |w.groups[other].states| - 1);
    ConfigsGrow(env, h, g, w.groups[g], at, |w.groups[g].states| - 1);
    hide Inv, GroupOk, Sound;
  }

  lemma CheckOk(env: Env, w: World, h: History, mine: int, listed: nat, at: nat, now: nat, g: int, theirs: nat, i: nat)
    requires EnvOk(env) && Inv(env, w, h) && Enabled(env, w, Check(mine, listed, at, now, g, theirs, i))
    ensures CommandOk(env, w, h, mine, Confirm(At(env, w, mine, at).config.num, i))
  {
    InGroup(env, w, h, mine, at, i);
    InGroup(env, w, h, g, theirs, i);
    ConfigsGrow(env, h, mine, w.groups[mine], at, |w.groups[mine].states| - 1);
    hide Inv, GroupOk, Sound;
    assert Owner(env, At(env, w, mine, at).config.num, i) == g;
  }

  // ----- Clerks -----

  lemma IssueKeeps(env: Env, w: World, h: History, op: Op)
    requires EnvOk(env) && Inv(env, w, h) && Enabled(env, w, Issue(op))
    ensures Inv(env, Step(env, w, Issue(op)), h)
  {
    var w2 := Step(env, w, Issue(op));
    assert op.clientId in w.clerks ==> ClerkOk(h, op.clientId, w.clerks[op.clientId]);
    forall o | Issued(w, o)
      ensures Issued(w2, o)
    {
    }
    assert SameLogs(w, w2);
    hide GroupOk, TokenOk, CommandOk;
    SameKeeps(env, w, w2, h);
  }

  lemma AnswerKeeps(env: Env, w: World, h: History, client: int, g: int, k: nat)
    requires EnvOk(env) && Inv(env, w, h) && Enabled(env, w, Answer(client, g, k))
    ensures Inv(env, Step(env, w, Answer(client, g, k)), h)
  {
    var w2 := Step(env, w, Answer(client, g, k));
    assert ClerkOk(h, client, w.clerks[client]);
    assert EntryOk(env, h, g, w.groups[g].states[k], w.groups[g].log[k], w.groups[g].states[k + 1]);
    assert SameLogs(w, w2);
    hide GroupOk, TokenOk, CommandOk;
    SameKeeps(env, w, w2, h);
  }

  // ----- All steps -----

  lemma InitOk(env: Env, w: World)
    requires EnvOk(env) && Init(env, w)
    ensures Inv(env, w, FirstHistory(env))
  {
    var h := FirstHistory(env);
    forall g | g in w.groups
      ensures GroupOk(env, h, g, w.groups[g])
    {
      assert w.groups[g] == Group([], [Start(env.n)], {});
    }
    hide GroupOk;
    forall i | 0 <= i < env.n
      ensures TokenOk(env, w, h, i)
    {
    }
  }

  lemma StepKeeps(env: Env, w: World, h: History, a: Action)
    requires EnvOk(env) && Inv(env, w, h) && Enabled(env, w, a)
    ensures CanApply(env, w, a) && Inv(env, Step(env, w, a), NextHistory(env, w, h, a))
  {
    hide Inv, CommandOk;
    match a
    case Issue(op) => IssueKeeps(env, w, h, op);
    case Request(g, at, op) => RequestOk(env, w, h, g, op); ProposeKeeps(env, w, h, g, Operation(op));
    case Answer(client, g, k) => AnswerKeeps(env, w, h, client, g, k);
    case Fetch(g, at) =>
      FetchOk(env, w, h, g, at);
      ProposeKeeps(env, w, h, g, Configure(env.configs[At(env, w, g, at).config.num + 1]));
    case Pull(g, at, now, other, theirs, i) =>
      PullOk(env, w, h, g, at, now, other, theirs, i);
      ProposeKeeps(env, w, h, g, PartOf(env, At(env, w, other, theirs), At(env, w, g, at).config.num, i));
    case Check(mine, listed, at, now, g, theirs, i) =>
      CheckOk(env, w, h, mine, listed, at, now, g, theirs, i);
      ProposeKeeps(env, w, h, mine, Confirm(At(env, w, mine, at).config.num, i));
    case Nudge(g) => NudgeOk(env, w, h, g); ProposeKeeps(env, w, h, g, NoOperation);
    case Commit(g, cmd) => CommitStep(env, w, h, g, cmd);
  }

  lemma RequestOk(env: Env, w: World, h: History, g: int, op: Op)
    requires EnvOk(env) && Inv(env, w, h) && Issued(w, op)
    ensures CommandOk(env, w, h, g, Operation(op))
  {
  }

  lemma NudgeOk(env: Env, w: World, h: History, g: int)
    requires EnvOk(env) && Inv(env, w, h)
    ensures CommandOk(env, w, h, g, NoOperation)
  {
  }

  lemma CommitStep(env: Env, w: World, h: History, g: int, cmd: Command)
    requires EnvOk(env) && Inv(env, w, h) && Enabled(env, w, Commit(g, cmd))
    ensures CanApply(env, w, Commit(g, cmd))
      && Inv(env, Step(env, w, Commit(g, cmd)), NextHistory(env, w, h, Commit(g, cmd)))
  {
    hide Inv;
    match cmd
    case Operation(op) => OperationKeeps(env, w, h, g, op);
    case Configure(config) => ConfigureKeeps(env, w, h, g, config);
    case Merge(_, _, _, _) => MergeKeeps(env, w, h, g, cmd);
    case Confirm(_, _) => ConfirmKeeps(env, w, h, g, cmd);
    case NoOperation =>
      Facts(env, w, h, g, cmd);
      NothingChanges(env, w, h, g, cmd);
      CommitKeeps(env, w, h, g, cmd, h, Last(w.groups[g]));
  }

  // ----- Runs -----

  /** Never an index out of range: what Raft commits always fits the group that applies it. */
  lemma {:induction false} RunIsOk(env: Env, ws: seq<World>, acts: seq<Action>, t: nat) returns (h: History)
    requires EnvOk(env) && Run(env, ws, acts) && t < |ws|
    ensures Inv(env, ws[t], h) && h == HistoryAt(env, ws, acts, t)
  {
    if t == 0 {
      InitOk(env, ws[0]);
      h := FirstHistory(env);
    } else {
      var before := RunIsOk(env, ws, acts, t - 1);
      assert Next(env, ws[t - 1], acts[t - 1], ws[t]);
      StepKeeps(env, ws[t - 1], before, acts[t - 1]);
      h := NextHistory(env, ws[t - 1], before, acts[t - 1]);
    }
  }

  ghost function HistoryAt(env: Env, ws: seq<World>, acts: seq<Action>, t: nat): (h: History)
    requires EnvOk(env) && Run(env, ws, acts) && t < |ws|
    ensures HistoryShaped(env, h)
  {
    if t == 0 then FirstHistory(env)
    else
      assert Next(env, ws[t - 1], acts[t - 1], ws[t]);
      NextHistory(env, ws[t - 1], HistoryAt(env, ws, acts, t - 1), acts[t - 1])
  }
}
