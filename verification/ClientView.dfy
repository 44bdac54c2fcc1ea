/**
 What clients see of a system whose runs are runs of the system of committed logs: a history that the
 checker's model of a store explains, in the times of the system's own run.
 */
module ClientView {
  import opened KvService
  import opened Linearizability
  import Spec = ShardSystem
  import Lin = ShardLinearizable
  import KvModel
  import Time = Timeline

  type Item = Time.Operation<KvModel.KvInput, KvModel.KvOutput>
  type Clerks = map<int, Spec.Clerk>

  /** A step of a system, as far as its clerks are concerned. */
  datatype Event = Issue(op: Op) | Accept(client: int, value: string) | Other

  /** The operation accepted is the one answered, with the value read there. */
  ghost predicate Accepts(env: Spec.Env, aw: Spec.World, act: Spec.Action, e: Event) {
    && act.Answer? && e.Accept? && act.client == e.client
    && Spec.ReadsAt(env, aw, act.g, act.k) && act.k < |aw.groups[act.g].log| && aw.groups[act.g].log[act.k].Operation?
    && var op := aw.groups[act.g].log[act.k].op;
       op.optype == Get ==> e.value == Value(aw.groups[act.g].states[act.k].kv, op.key)
  }

  /** Clerks do in the abstract run what they do in the system, when they do it there. */
  ghost predicate Fits(env: Spec.Env, aw: Spec.World, e: Event, more: seq<Spec.Action>) {
    match e
    case Issue(op) => more == [Spec.Issue(op)]
    case Accept(_, _) => |more| == 1 && Accepts(env, aw, more[0], e)
    case Other => forall j {:trigger more[j]} :: 0 <= j < |more| ==> !more[j].Issue? && !more[j].Answer?
  }

  /** `at` says where the abstract run is at each moment of the system's. */
  ghost predicate Tracks(env: Spec.Env, events: seq<Event>, clerks: seq<Clerks>, ws: seq<Spec.World>,
                         acts: seq<Spec.Action>, at: seq<nat>)
  {
    && Spec.EnvOk(env) && Spec.Run(env, ws, acts)
    && |events| + 1 == |clerks| == |at| && at[|events|] == |acts|
    && (forall u {:trigger acts[u]} :: 0 <= u < at[0] && u < |acts| ==> !acts[u].Issue? && !acts[u].Answer?)
    && (forall k, l {:trigger at[k], at[l]} :: 0 <= k <= l < |at| ==> at[k] <= at[l] <= |acts|)
    && (forall k {:trigger clerks[k]} :: 0 <= k < |clerks| ==> clerks[k] == ws[at[k]].clerks)
    && (forall k, l {:trigger at[k], at[l]} :: 0 <= k && l == k + 1 < |at| ==>
          Fits(env, ws[at[k]], events[k], acts[at[k]..at[l]]))
  }

  /** One more step of the system, and what the abstract run does meanwhile. */
  lemma TracksMore(env: Spec.Env, events: seq<Event>, clerks: seq<Clerks>, ws: seq<Spec.World>,
                   acts: seq<Spec.Action>, at: seq<nat>, e: Event, after: Clerks, ws2: seq<Spec.World>,
                   more: seq<Spec.Action>)
    requires Tracks(env, events, clerks, ws, acts, at) && Spec.Run(env, ws2, acts + more) && ws <= ws2
    requires after == ws2[|acts + more|].clerks && Fits(env, ws[|acts|], e, more)
    ensures Tracks(env, events + [e], clerks + [after], ws2, acts + more, at + [|acts + more|])
  {
    hide Fits, Spec.Next, Spec.Init;
    var n, all, at2 := |events|, acts + more, at + [|acts + more|];
    forall k, l | 0 <= k && l == k + 1 < |at2|
      ensures Fits(env, ws2[at2[k]], (events + [e])[k], all[at2[k]..at2[l]])
    {
      if l <= n {
        assert Fits(env, ws[at[k]], events[k], acts[at[k]..at[l]]);
        assert all[at2[k]..at2[l]] == acts[at[k]..at[l]];
      } else {
        assert all[at2[k]..at2[l]] == more;
      }
    }
    forall k | 0 <= k < |at2|
      ensures (clerks + [after])[k] == ws2[at2[k]].clerks
    {
      if k <= n { assert clerks[k] == ws[at[k]].clerks; }
    }
  }

  /** The operation the clerk has been waiting for longest. */
  ghost predicate Awaits(clerks: Clerks, op: Op) {
    && op.clientId in clerks && clerks[op.clientId].answered < |clerks[op.clientId].ops|
    && clerks[op.clientId].ops[clerks[op.clientId].answered] == op
  }

  /** Called when its clerk issued it, returned when the clerk accepted its reply, with that value; or never. */
  ghost predicate Records(events: seq<Event>, clerks: seq<Clerks>, e: Item, op: Op) {
    && |clerks| == |events| + 1 && e.clientId == op.clientId && e.input == Lin.InputOf(op)
    && 0 <= e.call < |events| && events[e.call] == Issue(op)
    && (e.ret == |events| || (0 <= e.ret < |events| && Returns(events, clerks, e, op)))
  }

  ghost predicate Returns(events: seq<Event>, clerks: seq<Clerks>, e: Item, op: Op)
    requires |clerks| == |events| + 1 && 0 <= e.ret < |events|
  {
    && events[e.ret].Accept? && events[e.ret].client == op.clientId && Awaits(clerks[e.ret], op)
    && (op.optype == Get ==> e.output.value == events[e.ret].value)
  }

  // ----- From abstract times to the system's -----

  lemma {:induction false} Locate(at: seq<nat>, u: nat) returns (k: nat)
    requires at != [] && at[0] <= u < at[|at| - 1]
    requires forall k, l {:trigger at[k], at[l]} :: 0 <= k <= l < |at| ==> at[k] <= at[l]
    ensures k + 1 < |at| && at[k] <= u < at[k + 1]
  {
    var n := |at| - 1;
    if at[n - 1] <= u {
      k := n - 1;
    } else {
      k := Locate(at[..n], u);
    }
  }

  /** The step the abstract step u is part of, and its clerk's part in it. */
  lemma StepOfClerk(env: Spec.Env, events: seq<Event>, clerks: seq<Clerks>, ws: seq<Spec.World>,
                    acts: seq<Spec.Action>, at: seq<nat>, u: nat)
    returns (k: nat)
    requires Tracks(env, events, clerks, ws, acts, at) && u < |acts| && (acts[u].Issue? || acts[u].Answer?)
    ensures k < |events| && at[k] == u && at[k + 1] == u + 1
    ensures acts[u].Issue? ==> events[k] == Issue(acts[u].op)
    ensures acts[u].Answer? ==> Accepts(env, ws[u], acts[u], events[k])
  {
    hide Spec.Next, Spec.Init;
    k := Locate(at, u);
    var more := acts[at[k]..at[k + 1]];
    assert Fits(env, ws[at[k]], events[k], more) && |more| == at[k + 1] - at[k];
    assert more[u - at[k]] == acts[u];
    assert !events[k].Other?;
  }

  /** Where the abstract run puts an operation of the system's. */
  ghost predicate Placed(acts: seq<Spec.Action>, at: seq<nat>, e: Item, e2: Item) {
    && e2.(call := e.call, ret := e.ret) == e && 0 <= e2.call < e2.ret < |at| && at[e2.call] == e.call
    && at[e2.ret] == e.ret
  }

  lemma MoveItem(env: Spec.Env, events: seq<Event>, clerks: seq<Clerks>, ws: seq<Spec.World>,
                 acts: seq<Spec.Action>, at: seq<nat>, e: Item, op: Op)
    returns (e2: Item)
    requires Tracks(env, events, clerks, ws, acts, at) && |ws| == |acts| + 1 && Lin.Records(env, ws, acts, e, op)
    requires e.call <= e.ret
    ensures Records(events, clerks, e2, op) && Placed(acts, at, e, e2)
  {
    var call := StepOfClerk(env, events, clerks, ws, acts, at, e.call);
    e2 := e.(call := call, ret := |events|);
    if e.ret < |acts| {
      var ret := StepOfClerk(env, events, clerks, ws, acts, at, e.ret);
      e2 := e.(call := call, ret := ret);
      AnswerAwaited(env, ws, acts, e.ret, op);
      assert at[ret] <= at[call] ==> e.ret <= e.call;
      assert clerks[ret] == ws[at[ret]].clerks;
    }
  }

  lemma AnswerAwaited(env: Spec.Env, ws: seq<Spec.World>, acts: seq<Spec.Action>, r: nat, op: Op)
    requires Spec.EnvOk(env) && Spec.Run(env, ws, acts) && r < |acts| && Lin.AnswersOp(env, ws[r], acts[r], op)
    ensures Awaits(ws[r].clerks, op) && acts[r].client == op.clientId
  {
    Lin.AnswerNumber(env, ws, acts, r, op);
    assert Spec.Next(env, ws[r], acts[r], ws[r + 1]);
  }

  lemma {:induction false} MoveAll(env: Spec.Env, events: seq<Event>, clerks: seq<Clerks>, ws: seq<Spec.World>,
                                   acts: seq<Spec.Action>, at: seq<nat>, h: KvModel.History, ops: seq<Op>, n: nat)
    returns (h2: KvModel.History)
    requires Tracks(env, events, clerks, ws, acts, at) && |ws| == |acts| + 1 && Time.Timed(h) && n <= |h| == |ops|
    requires forall i {:trigger h[i]} :: 0 <= i < |h| ==> Lin.Records(env, ws, acts, h[i], ops[i])
    ensures |h2| == n
    ensures forall i {:trigger h2[i]} :: 0 <= i < n ==>
      Records(events, clerks, h2[i], ops[i]) && Placed(acts, at, h[i], h2[i])
  {
    hide Tracks, Lin.Records, Records, Placed;
    if n == 0 {
      h2 := [];
    } else {
      h2 := MoveAll(env, events, clerks, ws, acts, at, h, ops, n - 1);
      var e := MoveItem(env, events, clerks, ws, acts, at, h[n - 1], ops[n - 1]);
      h2 := h2 + [e];
    }
  }

  /** Times of the system order no more than those of the abstract run. */
  lemma SameOrder(acts: seq<Spec.Action>, at: seq<nat>, h: KvModel.History, h2: KvModel.History)
    requires |h2| == |h| && forall i {:trigger h2[i]} :: 0 <= i < |h| ==> Placed(acts, at, h[i], h2[i])
    requires forall k, l {:trigger at[k], at[l]} :: 0 <= k < l < |at| ==> at[k] <= at[l]
    requires forall i {:trigger h2[i]} :: 0 <= i < |h| && 0 <= h2[i].ret < |at| - 1 ==>
      at[h2[i].ret] < at[h2[i].ret + 1]
    ensures Time.Timed(h2)
    ensures forall i, j {:trigger h2[i], h2[j]} :: 0 <= i < |h| && 0 <= j < |h| && h2[i].ret < h2[j].call ==>
      h[i].ret < h[j].call
  {
    forall i, j | 0 <= i < |h| && 0 <= j < |h| && h2[i].ret < h2[j].call
      ensures h[i].ret < h[j].call
    {
      var r, c := h2[i].ret, h2[j].call;
      assert at[r] < at[r + 1] && (r + 1 < c ==> at[r + 1] <= at[c]);
    }
  }

  /** A reply accepted is one step of the abstract run. */
  lemma AcceptStep(env: Spec.Env, events: seq<Event>, clerks: seq<Clerks>, ws: seq<Spec.World>,
                   acts: seq<Spec.Action>, at: seq<nat>, r: nat)
    requires Tracks(env, events, clerks, ws, acts, at) && r < |events| && events[r].Accept?
    ensures |ws| == |acts| + 1 && at[r] < |acts| && at[r + 1] == at[r] + 1
    ensures Accepts(env, ws[at[r]], acts[at[r]], events[r])
  {
    hide Accepts, Spec.Next, Spec.Init;
    assert Fits(env, ws[at[r]], events[r], acts[at[r]..at[r + 1]]);
  }

  /** The accepted reply is where its operation returns. */
  lemma AcceptRecorded(env: Spec.Env, events: seq<Event>, clerks: seq<Clerks>, ws: seq<Spec.World>,
                       acts: seq<Spec.Action>, at: seq<nat>, r: nat, e: Item, e2: Item, op: Op)
    requires Tracks(env, events, clerks, ws, acts, at) && r < |events| && events[r].Accept? && |ws| == |acts| + 1
    requires at[r] < |acts| && Lin.AnswersOp(env, ws[at[r]], acts[at[r]], op)
    requires Lin.Records(env, ws, acts, e, op) && Records(events, clerks, e2, op) && Placed(acts, at, e, e2)
    ensures e2.ret == r
  {
    hide Accepts, Spec.Next, Spec.Init;
    AcceptStep(env, events, clerks, ws, acts, at, r);
    assert Lin.Answered(env, ws, acts, op);
    assert e.ret < |acts|;
    if e.ret < at[r] { Lin.AnsweredOnce(env, ws, acts, e.ret, at[r], op); }
    if at[r] < e.ret { Lin.AnsweredOnce(env, ws, acts, at[r], e.ret, op); }
    assert e2.ret < |events|;
    AcceptStep(env, events, clerks, ws, acts, at, e2.ret);
    OneMoment(at, r, e2.ret);
  }

  lemma OneMoment(at: seq<nat>, r: nat, q: nat)
    requires forall k, l {:trigger at[k], at[l]} :: 0 <= k < l < |at| ==> at[k] <= at[l]
    requires r + 1 < |at| && q + 1 < |at| && at[r] == at[q] && at[r + 1] == at[q + 1] == at[r] + 1
    ensures r == q
  {
  }

  /**
   Linearizability, as clients see it: the operations whose replies were accepted, with some that were not,
   form a history in the system's own times that the model of one store explains.
   */
  lemma OneStoreSeen(env: Spec.Env, events: seq<Event>, clerks: seq<Clerks>, ws: seq<Spec.World>,
                     acts: seq<Spec.Action>, at: seq<nat>)
    returns (h: KvModel.History, ops: seq<Op>)
    requires Tracks(env, events, clerks, ws, acts, at)
    ensures Time.Timed(h) && Linearizable(KvModel.STORE_MODEL, Time.ProblemOfHistory(h))
    ensures |ops| == |h| && forall i {:trigger h[i]} :: 0 <= i < |h| ==> Records(events, clerks, h[i], ops[i])
    ensures forall i, j {:trigger ops[i], ops[j]} :: 0 <= i < j < |ops| ==> ops[i] != ops[j]
    ensures forall r {:trigger events[r]} :: 0 <= r < |events| && events[r].Accept? ==>
      exists i {:trigger h[i]} :: 0 <= i < |h| && h[i].ret == r
  {
    var h0;
    h0, ops := Lin.StoreIsLinearizable(env, ws, acts);
    assert |ws| == |acts| + 1;
    hide Accepts, Spec.Run, Lin.Records, Linearizable, Time.ProblemOfHistory, Fits, Lin.AnswersOp;
    h := MoveAll(env, events, clerks, ws, acts, at, h0, ops, |h0|);
    forall i | 0 <= i < |h| && 0 <= h[i].ret < |at| - 1
      ensures at[h[i].ret] < at[h[i].ret + 1]
    {
      assert Records(events, clerks, h[i], ops[i]);
      AcceptStep(env, events, clerks, ws, acts, at, h[i].ret);
    }
    SameOrder(acts, at, h0, h);
    Time.LooserTimes(KvModel.STORE_MODEL, h0, h);
    forall r | 0 <= r < |events| && events[r].Accept?
      ensures exists i :: 0 <= i < |h| && h[i].ret == r
    {
      AcceptStep(env, events, clerks, ws, acts, at, r);
      var op := AcceptedOp(env, ws[at[r]], acts[at[r]], events[r]);
      assert op in ops;
      var i :| 0 <= i < |ops| && ops[i] == op;
      AcceptRecorded(env, events, clerks, ws, acts, at, r, h0[i], h[i], op);
    }
  }

  lemma AcceptedOp(env: Spec.Env, w: Spec.World, act: Spec.Action, e: Event) returns (op: Op)
    requires Accepts(env, w, act, e)
    ensures Lin.AnswersOp(env, w, act, op)
  {
    op := w.groups[act.g].log[act.k].op;
  }
}
