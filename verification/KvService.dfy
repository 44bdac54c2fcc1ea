/** The key/value state machine that every replica of the kvraft service folds over its log. */
module KvService {

  datatype OpType = Get | Put | Append | Unknown

  datatype Op = Op(clientId: int, seqNum: int, key: string, value: string, optype: OpType)

  /** What a snapshot holds: the store and, per client, the last sequence number that took effect. */
  datatype KvState = KvState(store: map<string, string>, clientSeq: map<int, int>)

  const NO_OP := Op(0, 0, "", "", Unknown)
  const EMPTY := KvState(map[], map[])

  /** Reading an absent key of a Go map gives the zero value. */
  function Value(store: map<string, string>, key: string): string {
    if key in store then store[key] else ""
  }

  function Seq(clientSeq: map<int, int>, client: int): int {
    if client in clientSeq then clientSeq[client] else 0
  }

  /** What one operation does to the store. */
  function Effect(store: map<string, string>, op: Op): map<string, string> {
    match op.optype
    case Put => store[op.key := op.value]
    case Append => store[op.key := Value(store, op.key) + op.value]
    case _ => store
  }

  /** One committed command: opens the client's session and, unless it is a duplicate, takes effect. */
  function Apply(st: KvState, op: Op): KvState {
    var session := if op.clientId in st.clientSeq then st else st.(clientSeq := st.clientSeq[op.clientId := 0]);
    if session.clientSeq[op.clientId] >= op.seqNum then session
    else KvState(Effect(session.store, op), session.clientSeq[op.clientId := op.seqNum])
  }
}
