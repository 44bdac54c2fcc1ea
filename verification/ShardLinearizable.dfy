/** The sharded store is linearizable: every run is explained by the checker's own model of a store. */
module ShardLinearizable {
  import opened KvService
  import opened ShardService
  import opened ShardSystem
  import opened ShardInvariant
  import opened ShardSafety
  import opened ShardTheorems
  import opened Linearizability
  import KvModel
  import Time = Timeline

  // ----- Calls, applications and answers of a run -----

  /** The operation a clerk is answered, and with what value. */
  ghost predicate AnswersOp(env: Env, w: World, a: Action, op: Op) {
    && a.Answer? && ReadsAt(env, w, a.g, a.k) && a.k < |w.groups[a.g].log| && w.groups[a.g].log[a.k] == Operation(op)
  }

  ghost function AnswerValue(env: Env, w: World, a: Action, op: Op): string
    requires AnswersOp(env, w, a, op)
  {
    if op.optype == Get then Value(At(env, w, a.g, a.k).kv, op.key) else ""
  }

  ghost predicate Answered(env: Env, ws: seq<World>, acts: seq<Action>, op: Op)
    requires |ws| == |acts| + 1
  {
    exists r: nat {:trigger acts[r]} :: r < |acts| && AnswersOp(env, ws[r], acts[r], op)
  }

  /** A committed entry was committed by some step, in the state the log had reached. */
  ghost predicate CommittedBy(ws: seq<World>, acts: seq<Action>, t: nat, g: int, k: nat, cmd: Command, s: GroupState)
    requires t < |acts| < |ws|
  {
    && acts[t] == Commit(g, cmd) && g in ws[t].groups && |ws[t].groups[g].log| == k
    && ws[t].groups[g].states != [] && Last(ws[t].groups[g]) == s
  }

  lemma {:induction false} EntryCommitted(env: Env, ws: seq<World>, acts: seq<Action>, t: nat, g: int, k: nat)
    returns (u: nat)
    requires InRun(env, ws, acts, t) && g in ws[t].groups && k < |ws[t].groups[g].log| && k < |ws[t].groups[g].states|
    ensures u < t && CommittedBy(ws, acts, u, g, k, ws[t].groups[g].log[k], ws[t].groups[g].states[k])
  {
    if t == 0 {
      StartsEmpty(env, ws, acts, g);
    } else {
      assert Next(env, ws[t - 1], acts[t - 1], ws[t]);
      var h := RunIsOk(env, ws, acts, t - 1);
      Logs(env, ws[t - 1], h, g, acts[t - 1]);
      if k < |ws[t - 1].groups[g].log| {
        u := EntryCommitted(env, ws, acts, t - 1, g, k);
      } else {
        u := t - 1;
      }
    }
  }

  lemma StartsEmpty(env: Env, ws: seq<World>, acts: seq<Action>, g: int)
    requires InRun(env, ws, acts, 0) && g in ws[0].groups
    ensures ws[0].groups[g].log == []
  {
  }

  /** A step leaves a group's log alone or adds one entry to it. */
  lemma Logs(env: Env, w: World, h: History, g: int, a: Action)
    requires EnvOk(env) && Inv(env, w, h) && Enabled(env, w, a) && CanApply(env, w, a) && g in Step(env, w, a).groups
    ensures g in w.groups && |w.groups[g].states| == |w.groups[g].log| + 1
    ensures var group, group2 := w.groups[g], Step(env, w, a).groups[g];
      if a.Commit? && a.g == g then group2.log == group.log + [a.cmd] && |group2.states| == |group.states| + 1
        && group.states <= group2.states
      else group2.log == group.log && group2.states == group.states
  {
    assert g in w.groups ==> GroupOk(env, h, g, w.groups[g]);
    hide Inv, StateOk, LatestOk, EntryOk, Enabled;
  }

  lemma {:induction false} IssueStep(env: Env, ws: seq<World>, acts: seq<Action>, t: nat, op: Op) returns (c: nat)
    requires InRun(env, ws, acts, t) && Issued(ws[t], op)
    ensures c < t && acts[c] == Issue(op) && op.optype != Unknown
  {
    if t > 0 {
      assert Next(env, ws[t - 1], acts[t - 1], ws[t]);
      if Issued(ws[t - 1], op) {
        c := IssueStep(env, ws, acts, t - 1, op);
      } else {
        c := t - 1;
        NewlyIssued(env, ws[t - 1], acts[t - 1], op);
      }
    }
  }

  lemma NewlyIssued(env: Env, w: World, a: Action, op: Op)
    requires EnvOk(env) && Enabled(env, w, a) && CanApply(env, w, a) && Issued(Step(env, w, a), op) && !Issued(w, op)
    ensures a == Issue(op) && op.optype != Unknown
  {
  }

  // ----- An operation is answered once -----

  lemma {:induction false} AnsweredGrows(env: Env, ws: seq<World>, acts: seq<Action>, t: nat, u: nat, client: int)
    requires InRun(env, ws, acts, u) && t <= u && client in ws[t].clerks
    ensures client in ws[u].clerks && ws[t].clerks[client].answered <= ws[u].clerks[client].answered
    decreases u - t
  {
    if t < u {
      AnsweredGrows(env, ws, acts, t, u - 1, client);
      assert Next(env, ws[u - 1], acts[u - 1], ws[u]);
    }
  }

  lemma AnswerNumber(env: Env, ws: seq<World>, acts: seq<Action>, r: nat, op: Op)
    requires InRun(env, ws, acts, r) && r < |acts| && AnswersOp(env, ws[r], acts[r], op)
    ensures op.clientId in ws[r].clerks && ws[r].clerks[op.clientId].answered == op.seqNum - 1
    ensures op.clientId in ws[r + 1].clerks && ws[r + 1].clerks[op.clientId].answered == op.seqNum
    ensures Serves(env.n, At(env, ws[r], acts[r].g, acts[r].k), op) && Issued(ws[r], op)
  {
    assert Next(env, ws[r], acts[r], ws[r + 1]);
    var h := RunIsOk(env, ws, acts, r);
    assert ClerkOk(h, acts[r].client, ws[r].clerks[acts[r].client]);
  }

  lemma AnsweredOnce(env: Env, ws: seq<World>, acts: seq<Action>, r: nat, r2: nat, op: Op)
    requires InRun(env, ws, acts, r2) && r < r2 < |acts| && AnswersOp(env, ws[r], acts[r], op)
    ensures !AnswersOp(env, ws[r2], acts[r2], op)
  {
    AnswerNumber(env, ws, acts, r, op);
    AnsweredGrows(env, ws, acts, r + 1, r2, op.clientId);
    if AnswersOp(env, ws[r2], acts[r2], op) {
      AnswerNumber(env, ws, acts, r2, op);
    }
  }

  // ----- Where operations take place -----

  /** The answer that comes from the application at step t. */
  ghost predicate AnswerFrom(env: Env, ws: seq<World>, acts: seq<Action>, t: nat, r: nat)
    requires |ws| == |acts| + 1 && t < |acts|
  {
    && Applies(env, ws[t], acts[t]) && t < r < |acts| && acts[r].Answer?
    && acts[r].g == acts[t].g && acts[r].k == |ws[t].groups[acts[t].g].log|
  }

  /** A write takes place where it takes effect, a read where the value it is answered with was read. */
  ghost predicate IsPoint(env: Env, ws: seq<World>, acts: seq<Action>, t: nat)
    requires |ws| == |acts| + 1 && t < |acts|
  {
    && Applies(env, ws[t], acts[t])
    && if acts[t].cmd.op.optype == Get then exists r: nat {:trigger acts[r]} :: AnswerFrom(env, ws, acts, t, r)
       else Effective(env, ws[t], acts[t])
  }

  /** An answer from the application at t answers the operation applied there, with the value read there. */
  lemma AnswerIsOf(env: Env, ws: seq<World>, acts: seq<Action>, t: nat, r: nat)
    requires InRun(env, ws, acts, t) && t < |acts| && AnswerFrom(env, ws, acts, t, r)
    ensures AnswersOp(env, ws[r], acts[r], acts[t].cmd.op)
    ensures At(env, ws[r], acts[r].g, acts[r].k) == Last(ws[t].groups[acts[t].g])
  {
    assert Next(env, ws[r], acts[r], ws[r + 1]);
    var g, k := acts[r].g, acts[r].k;
    var u := EntryCommitted(env, ws, acts, r, g, k);
    SameEntry(env, ws, acts, t, u);
  }

  /** Two steps that commit the same entry of a group's log are one step. */
  lemma SameEntry(env: Env, ws: seq<World>, acts: seq<Action>, t: nat, u: nat)
    requires InRun(env, ws, acts, t) && t < |acts| && u < |acts| && acts[t].Commit? && acts[u].Commit?
      && acts[t].g == acts[u].g
    requires acts[t].g in ws[t].groups && acts[u].g in ws[u].groups
      && |ws[t].groups[acts[t].g].log| == |ws[u].groups[acts[u].g].log|
    ensures t == u
  {
    if t < u {
      assert Next(env, ws[t], acts[t], ws[t + 1]);
      LogGrows(env, ws, acts, t + 1, u, acts[t].g);
    } else if u < t {
      assert Next(env, ws[u], acts[u], ws[u + 1]);
      LogGrows(env, ws, acts, u + 1, t, acts[t].g);
    }
  }

  lemma {:induction false} LogGrows(env: Env, ws: seq<World>, acts: seq<Action>, t: nat, u: nat, g: int)
    requires InRun(env, ws, acts, u) && t <= u && g in ws[t].groups
    ensures g in ws[u].groups && |ws[t].groups[g].log| <= |ws[u].groups[g].log|
    decreases u - t
  {
    hide Enabled, ApplyCommand, PartOf, Init;
    if t < u {
      LogGrows(env, ws, acts, t, u - 1, g);
      assert Next(env, ws[u - 1], acts[u - 1], ws[u]);
    }
  }

  /** An operation takes place at one step only. */
  lemma OnePoint(env: Env, ws: seq<World>, acts: seq<Action>, t: nat, u: nat)
    requires InRun(env, ws, acts, t) && t < u < |acts| && IsPoint(env, ws, acts, t) && IsPoint(env, ws, acts, u)
    ensures acts[t].cmd.op != acts[u].cmd.op
  {
    var op := acts[t].cmd.op;
    if op == acts[u].cmd.op {
      if op.optype == Get {
        var r: nat :| AnswerFrom(env, ws, acts, t, r);
        var r2: nat :| AnswerFrom(env, ws, acts, u, r2);
        AnswerIsOf(env, ws, acts, t, r);
        AnswerIsOf(env, ws, acts, u, r2);
        if r < r2 { AnsweredOnce(env, ws, acts, r, r2, op); }
        if r2 < r { AnsweredOnce(env, ws, acts, r2, r, op); }
        SameEntry(env, ws, acts, t, u);
      } else {
        AtMostOnce(env, ws, acts, t, u);
      }
    }
  }

  /** What is answered took place, before the answer. */
  lemma AnswerHasPoint(env: Env, ws: seq<World>, acts: seq<Action>, r: nat, op: Op) returns (t: nat)
    requires InRun(env, ws, acts, r) && r < |acts| && AnswersOp(env, ws[r], acts[r], op)
    ensures t < r && IsPoint(env, ws, acts, t) && acts[t].cmd.op == op
    ensures op.optype == Get ==> AnswerFrom(env, ws, acts, t, r)
  {
    AnswerNumber(env, ws, acts, r, op);
    var g, k := acts[r].g, acts[r].k;
    t := EntryCommitted(env, ws, acts, r, g, k);
    assert Next(env, ws[t], acts[t], ws[t + 1]);
    if op.optype == Get {
      assert AnswerFrom(env, ws, acts, t, r);
    } else {
      var h := RunIsOk(env, ws, acts, r);
      assert EntryOk(env, h, g, ws[r].groups[g].states[k], ws[r].groups[g].log[k], ws[r].groups[g].states[k + 1]);
      HistoryIs(env, ws, acts, r, op);
      t :| 0 <= t < r && Effective(env, ws[t], acts[t]) && acts[t].cmd.op == op;
    }
  }

  // ----- The history of a run -----

  function InputOf(op: Op): KvModel.KvInput {
    KvModel.KvInput(if op.optype == Get then 0 else if op.optype == Put then 1 else 2, op.key, op.value)
  }

  /**
   Called when the clerk issued it; returned when it was answered, with that answer; or took effect and was never
   answered.
   */
  ghost predicate Records(env: Env, ws: seq<World>, acts: seq<Action>,
                          e: Time.Operation<KvModel.KvInput, KvModel.KvOutput>, op: Op)
    requires |ws| == |acts| + 1
  {
    && e.clientId == op.clientId && e.input == InputOf(op)
    && 0 <= e.call < |acts| && acts[e.call] == Issue(op)
    && if e.ret == |acts| then !Answered(env, ws, acts, op) && TookEffect(env, ws, acts, |acts|, op)
       else 0 <= e.ret < |acts| && AnswersOp(env, ws[e.ret], acts[e.ret], op)
            && e.output.value == AnswerValue(env, ws[e.ret], acts[e.ret], op)
  }

  /** The record of the operation that takes place at step t. */
  ghost predicate ItemOk(env: Env, ws: seq<World>, acts: seq<Action>,
                         e: Time.Operation<KvModel.KvInput, KvModel.KvOutput>, t: nat)
    requires |ws| == |acts| + 1
  {
    && t < |acts| && IsPoint(env, ws, acts, t) && Records(env, ws, acts, e, acts[t].cmd.op) && e.call <= t <= e.ret
    && acts[t].cmd.op.optype != Unknown
    && (acts[t].cmd.op.optype == Get ==> e.output.value == Value(Last(ws[t].groups[acts[t].g]).kv, acts[t].cmd.op.key))
  }

  lemma PointIssued(env: Env, ws: seq<World>, acts: seq<Action>, t: nat) returns (c: nat)
    requires InRun(env, ws, acts, t) && t < |acts| && IsPoint(env, ws, acts, t)
    ensures c < t && acts[c] == Issue(acts[t].cmd.op) && acts[t].cmd.op.optype != Unknown
  {
    assert Next(env, ws[t], acts[t], ws[t + 1]);
    var h := RunIsOk(env, ws, acts, t);
    Pending(env, ws[t], acts[t]);
    OperationIssued(env, ws[t], h, acts[t].g, acts[t].cmd.op);
    c := IssueStep(env, ws, acts, t, acts[t].cmd.op);
  }

  lemma AnswerAfterPoint(env: Env, ws: seq<World>, acts: seq<Action>, t: nat, r: nat)
    requires InRun(env, ws, acts, t) && t < |acts| && IsPoint(env, ws, acts, t) && r < |acts|
      && AnswersOp(env, ws[r], acts[r], acts[t].cmd.op)
    ensures t < r && (acts[t].cmd.op.optype == Get ==> AnswerFrom(env, ws, acts, t, r))
  {
    var u := AnswerHasPoint(env, ws, acts, r, acts[t].cmd.op);
    if u < t { OnePoint(env, ws, acts, u, t); }
    if t < u { OnePoint(env, ws, acts, t, u); }
  }

  lemma MakeItem(env: Env, ws: seq<World>, acts: seq<Action>, t: nat)
    returns (e: Time.Operation<KvModel.KvInput, KvModel.KvOutput>)
    requires InRun(env, ws, acts, t) && t < |acts| && IsPoint(env, ws, acts, t)
    ensures ItemOk(env, ws, acts, e, t)
  {
    var op := acts[t].cmd.op;
    var c := PointIssued(env, ws, acts, t);
    if Answered(env, ws, acts, op) {
      var r: nat :| r < |acts| && AnswersOp(env, ws[r], acts[r], op);
      AnswerAfterPoint(env, ws, acts, t, r);
      if op.optype == Get { AnswerIsOf(env, ws, acts, t, r); }
      e := Time.Operation(op.clientId, InputOf(op), c, KvModel.KvOutput(AnswerValue(env, ws[r], acts[r], op)), r);
    } else {
      if op.optype == Get {
        var r: nat :| AnswerFrom(env, ws, acts, t, r);
        AnswerIsOf(env, ws, acts, t, r);
      }
      e := Time.Operation(op.clientId, InputOf(op), c, KvModel.KvOutput(""), |acts|);
    }
  }

  /** The operations that take place before step t, in order. */
  ghost predicate Listed(env: Env, ws: seq<World>, acts: seq<Action>, h: KvModel.History, pts: seq<nat>, t: nat)
    requires |ws| == |acts| + 1
  {
    && |h| == |pts| && t <= |acts|
    && (forall i {:trigger pts[i]} :: 0 <= i < |pts| ==> pts[i] < t && ItemOk(env, ws, acts, h[i], pts[i]))
    && (forall i, j {:trigger pts[i], pts[j]} :: 0 <= i < j < |pts| ==> pts[i] < pts[j])
    && (forall u: nat {:trigger IsPoint(env, ws, acts, u)} :: u < t && IsPoint(env, ws, acts, u) ==> u in pts)
  }

  lemma {:induction false} Collect(env: Env, ws: seq<World>, acts: seq<Action>, t: nat)
    returns (h: KvModel.History, pts: seq<nat>)
    requires InRun(env, ws, acts, t)
    ensures Listed(env, ws, acts, h, pts, t)
  {
    assert |ws| == |acts| + 1;
    hide IsPoint, ItemOk, Run;
    if t == 0 {
      h, pts := [], [];
    } else {
      h, pts := Collect(env, ws, acts, t - 1);
      if IsPoint(env, ws, acts, t - 1) {
        var e := MakeItem(env, ws, acts, t - 1);
        h, pts := h + [e], pts + [t - 1];
      }
    }
  }

  // ----- The model accepts it -----

  ghost predicate Matches(st: map<string, string>, store: map<string, string>) {
    forall key {:trigger KvModel.Lookup(st, key)} :: KvModel.Lookup(st, key) == Value(store, key)
  }

  /** The service's operations are the model's: Get reads, Put replaces, Append adds to the end. */
  lemma EffectIsModel(st: map<string, string>, store: map<string, string>, op: Op, out: KvModel.KvOutput)
    requires Matches(st, store) && op.optype != Unknown && (op.optype == Get ==> out.value == Value(store, op.key))
    ensures KvModel.StepStore(st, InputOf(op), out).0
      && Matches(KvModel.StepStore(st, InputOf(op), out).1, Effect(store, op))
  {
    assert KvModel.Lookup(st, op.key) == Value(store, op.key);
    var st2, store2 := KvModel.StepStore(st, InputOf(op), out).1, Effect(store, op);
    forall key
      ensures KvModel.Lookup(st2, key) == Value(store2, key)
    {
      assert KvModel.Lookup(st, key) == Value(store, key);
    }
  }

  lemma PointStep(env: Env, ws: seq<World>, acts: seq<Action>, t: nat,
                  e: Time.Operation<KvModel.KvInput, KvModel.KvOutput>, st: map<string, string>)
    requires InRun(env, ws, acts, t) && t < |acts| && ItemOk(env, ws, acts, e, t)
      && Matches(st, StoreAt(env, ws, acts, t))
    ensures KvModel.StepStore(st, e.input, e.output).0
    ensures Matches(KvModel.StepStore(st, e.input, e.output).1, StoreAt(env, ws, acts, t + 1))
  {
    var op := acts[t].cmd.op;
    ServedAlways(env, ws, acts, t, acts[t].g, op.key);
    EffectIsModel(st, StoreAt(env, ws, acts, t), op, e.output);
  }

  /** Between those steps the store does not change. */
  lemma QuietStep(env: Env, ws: seq<World>, acts: seq<Action>, t: nat)
    requires InRun(env, ws, acts, t) && t < |acts| && !IsPoint(env, ws, acts, t)
    ensures StoreAt(env, ws, acts, t + 1) == StoreAt(env, ws, acts, t)
  {
    assert Effective(env, ws[t], acts[t]) ==> acts[t].cmd.op.optype == Get;
  }

  ghost function From(i: nat, n: nat): seq<nat>
    requires i <= n
  {
    seq<nat>(n - i, j requires 0 <= j < n - i => i + j)
  }

  /** Exactly the first i come before step t. */
  ghost predicate Splits(pts: seq<nat>, t: nat, i: nat) {
    forall j {:trigger pts[j]} :: 0 <= j < |pts| ==> (pts[j] < t <==> j < i)
  }

  lemma NextPoint(pts: seq<nat>, t: nat, i: nat, j: nat)
    requires Splits(pts, t, i) && j < |pts| && pts[j] == t
      && forall x, y {:trigger pts[x], pts[y]} :: 0 <= x < y < |pts| ==> pts[x] < pts[y]
    ensures j == i && Splits(pts, t + 1, i + 1)
  {
    assert i <= j;
    assert pts[i] >= t;
  }

  lemma NotYet(env: Env, ws: seq<World>, acts: seq<Action>, h: KvModel.History, pts: seq<nat>, t: nat, i: nat)
    requires InRun(env, ws, acts, t) && t < |acts| && Listed(env, ws, acts, h, pts, |acts|) && Splits(pts, t, i)
      && !IsPoint(env, ws, acts, t)
    ensures Splits(pts, t + 1, i)
  {
    hide Records;
    forall j | 0 <= j < |pts|
      ensures pts[j] != t
    {
      assert ItemOk(env, ws, acts, h[j], pts[j]);
    }
  }

  /** From the i-th on, the model accepts the history. */
  ghost predicate Accepted(h: KvModel.History, i: nat, st: map<string, string>) {
    Time.Timed(h) && i <= |h| && Passes(KvModel.STORE_MODEL, Time.ProblemOfHistory(h), From(i, |h|), st)
  }

  lemma PassesFrom<S, I, O>(m: Model<S, I, O>, p: Problem<I, O>, i: nat, st: S)
    requires WellPosed(p) && i < |p.inputs| && StepOf(m, p, st, i).0
    requires Passes(m, p, From(i + 1, |p.inputs|), StepOf(m, p, st, i).1)
    ensures Passes(m, p, From(i, |p.inputs|), st)
  {
    hide StepOf;
    var n := |p.inputs|;
    assert From(i, n)[1..] == From(i + 1, n) && From(i, n)[0] == i;
  }

  lemma AcceptOne(h: KvModel.History, i: nat, st: map<string, string>)
    requires i < |h| && KvModel.StepStore(st, h[i].input, h[i].output).0
    requires Accepted(h, i + 1, KvModel.StepStore(st, h[i].input, h[i].output).1)
    ensures Accepted(h, i, st)
  {
    var p := Time.ProblemOfHistory(h);
    assert StepOf(KvModel.STORE_MODEL, p, st, i) == KvModel.StepStore(st, h[i].input, h[i].output) && |p.inputs| == |h|;
    hide Time.ProblemOfHistory, StepOf, Passes, KvModel.StepStore;
    PassesFrom(KvModel.STORE_MODEL, p, i, st);
  }

  lemma {:induction false} ModelAccepts(env: Env, ws: seq<World>, acts: seq<Action>, h: KvModel.History, pts: seq<nat>,
                                        t: nat, i: nat, st: map<string, string>)
    requires InRun(env, ws, acts, t) && |ws| == |acts| + 1 && Listed(env, ws, acts, h, pts, |acts|) && Time.Timed(h)
      && i <= |h|
    requires Splits(pts, t, i) && Matches(st, StoreAt(env, ws, acts, t))
    ensures Accepted(h, i, st)
    decreases |acts| - t
  {
    hide IsPoint, ItemOk, Matches, StoreAt, Run, KvModel.StepStore, Splits, Accepted;
    if t < |acts| {
      if IsPoint(env, ws, acts, t) {
        assert t in pts;
        var j :| 0 <= j < |pts| && pts[j] == t;
        NextPoint(pts, t, i, j);
        PointStep(env, ws, acts, t, h[i], st);
        ModelAccepts(env, ws, acts, h, pts, t + 1, i + 1, KvModel.StepStore(st, h[i].input, h[i].output).1);
        AcceptOne(h, i, st);
      } else {
        QuietStep(env, ws, acts, t);
        NotYet(env, ws, acts, h, pts, t, i);
        ModelAccepts(env, ws, acts, h, pts, t + 1, i, st);
      }
    } else {
      AllBefore(env, ws, acts, h, pts, i);
      AcceptNone(h, st);
    }
  }

  lemma AcceptNone(h: KvModel.History, st: map<string, string>)
    requires Time.Timed(h)
    ensures Accepted(h, |h|, st)
  {
  }

  lemma AllBefore(env: Env, ws: seq<World>, acts: seq<Action>, h: KvModel.History, pts: seq<nat>, i: nat)
    requires |ws| == |acts| + 1 && Listed(env, ws, acts, h, pts, |acts|) && Splits(pts, |acts|, i) && i <= |h|
    ensures i == |h|
  {
    hide ItemOk, IsPoint;
    if pts != [] { assert pts[|pts| - 1] < |acts|; }
  }

  // ----- The theorem -----

  lemma ListedTimed(env: Env, ws: seq<World>, acts: seq<Action>, h: KvModel.History, pts: seq<nat>)
    requires |ws| == |acts| + 1 && Listed(env, ws, acts, h, pts, |acts|)
    ensures Time.Timed(h)
    ensures forall i, j {:trigger h[i], h[j]} :: 0 <= i < j < |h| ==> h[i].call <= h[j].ret
  {
    hide IsPoint, Records;
    forall i | 0 <= i < |h| ensures h[i].call <= pts[i] <= h[i].ret { assert ItemOk(env, ws, acts, h[i], pts[i]); }
  }

  lemma InOrder(h: KvModel.History)
    requires Time.Timed(h) && forall i, j {:trigger h[i], h[j]} :: 0 <= i < j < |h| ==> h[i].call <= h[j].ret
    ensures Lists(|h|, {}, From(0, |h|)) && InTime(Time.ProblemOfHistory(h), From(0, |h|))
  {
    var order, p := From(0, |h|), Time.ProblemOfHistory(h);
    forall id: nat | id < |h|
      ensures id in order
    {
      assert order[id] == id;
    }
    forall i, j | 0 <= i < j < |order|
      ensures (order[j], order[i]) !in p.before
    {
      assert h[i].call <= h[j].ret;
    }
  }

  /**
   Linearizability: in every run, the operations of all clerks that were answered, together with unanswered
   ones that took effect, form a history that the model of a single store explains. Every answer of the run
   is in the history exactly once.
   */
  lemma StoreIsLinearizable(env: Env, ws: seq<World>, acts: seq<Action>) returns (h: KvModel.History, ops: seq<Op>)
    requires EnvOk(env) && Run(env, ws, acts)
    ensures Time.Timed(h) && Linearizable(KvModel.STORE_MODEL, Time.ProblemOfHistory(h))
    ensures |ops| == |h| && forall i {:trigger h[i]} :: 0 <= i < |h| ==> Records(env, ws, acts, h[i], ops[i])
    ensures forall i, j {:trigger ops[i], ops[j]} :: 0 <= i < j < |ops| ==> ops[i] != ops[j]
    ensures forall r: nat, op {:trigger AnswersOp(env, ws[r], acts[r], op)} ::
      r < |acts| && AnswersOp(env, ws[r], acts[r], op) ==> op in ops
  {
    var n, pts := |acts|, [];
    h, pts := Collect(env, ws, acts, n);
    ops := seq(|pts|, i requires 0 <= i < |pts| => OpAt(acts, pts[i]));
    hide IsPoint, Records, Linearizable, Time.ProblemOfHistory, Time.Timed;
    Explained(env, ws, acts, h, pts);
    forall i | 0 <= i < |h|
      ensures Records(env, ws, acts, h[i], ops[i])
    {
      assert ItemOk(env, ws, acts, h[i], pts[i]);
    }
    forall i, j | 0 <= i < j < |ops|
      ensures ops[i] != ops[j]
    {
      assert ItemOk(env, ws, acts, h[i], pts[i]) && ItemOk(env, ws, acts, h[j], pts[j]);
      OnePoint(env, ws, acts, pts[i], pts[j]);
    }
    forall r: nat, op | r < |acts| && AnswersOp(env, ws[r], acts[r], op)
      ensures op in ops
    {
      var t := AnswerHasPoint(env, ws, acts, r, op);
      assert t in pts;
      var i :| 0 <= i < |pts| && pts[i] == t;
      assert ops[i] == op;
    }
  }

  lemma Explained(env: Env, ws: seq<World>, acts: seq<Action>, h: KvModel.History, pts: seq<nat>)
    requires InRun(env, ws, acts, 0) && |ws| == |acts| + 1 && Listed(env, ws, acts, h, pts, |acts|)
    ensures Time.Timed(h) && Linearizable(KvModel.STORE_MODEL, Time.ProblemOfHistory(h))
  {
    assert |Time.ProblemOfHistory(h).inputs| == |h|;
    hide IsPoint, ItemOk, Run, Passes, Time.ProblemOfHistory, Lists, InTime;
    ListedTimed(env, ws, acts, h, pts);
    InOrder(h);
    ModelAccepts(env, ws, acts, h, pts, 0, 0, map[]);
    assert Witness(KvModel.STORE_MODEL, Time.ProblemOfHistory(h), {}, map[], From(0, |h|));
  }

  ghost function OpAt(acts: seq<Action>, t: nat): Op {
    if t < |acts| && acts[t].Commit? && acts[t].cmd.Operation? then acts[t].cmd.op else NO_OP
  }
}
