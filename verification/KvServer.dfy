/** The kvraft service on top of its peer: what it does with each message of the apply channel. */
module KvServer {
  import opened KvService
  import opened Service
  import opened RaftCluster
  import opened RaftPeer

  class KVServer {
    const rf: Raft
    var currentState: map<string, string>
    var clientSeq: map<int, int>
    var lastIncludedIndex: int

    ghost function State(): Data
      reads this
    {
      KvData(KvState(currentState, clientSeq))
    }

    /** The replica this service and its peer make up, with a message in hand. */
    ghost function Holder(m: ApplyMsg): Node
      reads this, rf
    {
      Node(rf.State(), {}, {}, Idle, Holding(m), State(), lastIncludedIndex)
    }

    constructor (rf: Raft)
      requires rf.snapshot.KvData?
      ensures this.rf == rf && State() == rf.snapshot && lastIncludedIndex == 0
    {
      this.rf := rf;
      currentState, clientSeq, lastIncludedIndex := rf.snapshot.kv.store, rf.snapshot.kv.clientSeq, 0;
    }

    method ApplyToStateMachine(op: Op)
      modifies this
      ensures currentState == Effect(old(currentState), op)
      ensures clientSeq == old(clientSeq)[op.clientId := op.seqNum] && lastIncludedIndex == old(lastIncludedIndex)
    {
      clientSeq := clientSeq[op.clientId := op.seqNum];
      match op.optype {
        case Put =>
          currentState := currentState[op.key := op.value];
        case Append =>
          var value := Value(currentState, op.key);
          currentState := currentState[op.key := value + op.value];
        case _ =>
      }
    }

    /** One message of the apply channel; `over` is whether the saved peer state has outgrown its limit. */
    method OnApplyMsg(m: ApplyMsg, over: bool) returns (reply: string)
      requires rf.Valid() && InBounds(Holder(m), Handle(over))
      requires if m.Command? then m.command.KvCmd? else m.data.KvData?
      modifies this, rf
      ensures rf.Valid()
      ensures var after := HandleMessage(old(Holder(m)), over);
              rf.State() == after.rf && State() == after.kv && lastIncludedIndex == after.kvLast
      ensures m.Command? && m.index > old(lastIncludedIndex) && m.command.op.optype == Get ==>
                reply == Value(currentState, m.command.op.key)
    {
      reply := "";
      match m {
        case Install(index, term, data) =>
          var installed := rf.CondInstall(term, index, data);
          if installed {
            currentState, clientSeq := data.kv.store, data.kv.clientSeq;
            lastIncludedIndex := index;
          }
        case Command(cmd, index) =>
          var op := cmd.op;
          if index <= lastIncludedIndex {
            return;
          }
          if op.clientId !in clientSeq {
            clientSeq := clientSeq[op.clientId := 0];
          }
          if op.optype == Get {
            reply := Value(currentState, op.key);
          }
          if clientSeq[op.clientId] < op.seqNum {
            ApplyToStateMachine(op);
          }
          if over {
            rf.TakeSnapshot(index, KvData(KvState(currentState, clientSeq)));
          }
      }
    }
  }
}
