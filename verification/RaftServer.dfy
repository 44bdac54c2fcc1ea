/** One Raft peer: its state and, as functions of that state, what each RPC handler and each reply does. */
module RaftServer {
  import opened Service

  datatype Role = Leader | Follower | Candidate

  datatype Entry = Entry(term: int, command: Cmd, index: int)
  type Log = seq<Entry>

  /** Slot 0 of a peer's log: a zero entry standing for everything the snapshot covers. */
  const HEAD := Entry(0, NoCmd, 0)

  datatype Server = Server(
    me: int,
    peers: nat,
    role: Role,
    log: Log,
    currentTerm: int,
    votedFor: int,
    commitIndex: int,
    lastApplied: int,
    votesNum: int,
    nextIndex: seq<int>,
    matchIndex: seq<int>,
    lastIncludedIndex: int,
    lastIncludedTerm: int,
    snapshot: Data)

  datatype VoteArgs = VoteArgs(term: int, candidate: int, lastLogIndex: int, lastLogTerm: int)
  datatype VoteReply = VoteReply(term: int, granted: bool)

  datatype AppendArgs = AppendArgs(
    term: int, leader: int, prevLogIndex: int, prevLogTerm: int, entries: Log, leaderCommit: int)
  datatype AppendReply = AppendReply(term: int, success: bool, inconsistent: bool, xTerm: int, xIndex: int)

  datatype SnapshotArgs = SnapshotArgs(
    term: int, leader: int, lastIncludedIndex: int, lastIncludedTerm: int, data: Data)

  // ----- Reading a trimmed log -----

  function Max(a: int, b: int): int {
    if a < b then b else a
  }

  /** Term of the entry at a real index of the log, the snapshot's term at index 0. */
  function TermAt(s: Server, pos: nat): int
    requires pos < |s.log|
  {
    if pos == 0 then s.lastIncludedTerm else s.log[pos].term
  }

  function LastLogIndex(s: Server): int {
    s.lastIncludedIndex + |s.log| - 1
  }

  function LastLogTerm(s: Server): int
    requires s.log != []
  {
    TermAt(s, |s.log| - 1)
  }

  /** Walks back from `i` while the preceding slot holds the given term. */
  function FirstOfRun(log: Log, i: nat, term: int): (first: nat)
    requires i <= |log|
    ensures first <= i
    ensures forall k :: first <= k < i ==> log[k].term == term
    ensures first == 0 || log[first - 1].term != term
  {
    if i > 0 && log[i - 1].term == term then FirstOfRun(log, i - 1, term) else i
  }

  function SameTermFirst(s: Server, pos: nat): nat
    requires pos < |s.log|
  {
    if pos == 0 then 0 else FirstOfRun(s.log, pos, TermAt(s, pos))
  }

  // ----- Role changes -----

  function FollowerState(s: Server, term: int): Server {
    s.(role := Follower, currentTerm := term, votedFor := -1, votesNum := 0)
  }

  function CandidateState(s: Server): Server {
    s.(role := Candidate, currentTerm := s.currentTerm + 1, votedFor := s.me, votesNum := 1)
  }

  function LeaderState(s: Server): Server {
    s.(role := Leader,
    nextIndex := seq(s.peers, i => LastLogIndex(s) + 1),
    matchIndex := seq(s.peers, i => -1))
  }

  // ----- Elections -----

  function MakeVoteArgs(s: Server): VoteArgs
    requires s.log != []
  {
    VoteArgs(s.currentTerm, s.me, LastLogIndex(s), LastLogTerm(s))
  }

  predicate CandidateUpToDate(s: Server, a: VoteArgs)
    requires s.log != []
  {
    || a.lastLogTerm > LastLogTerm(s)
    || (a.lastLogTerm == LastLogTerm(s) && a.lastLogIndex >= LastLogIndex(s))
  }

  function HandleVote(s: Server, a: VoteArgs): (Server, VoteReply)
    requires s.log != []
  {
    var t := if a.term > s.currentTerm then FollowerState(s, a.term) else s;
    if a.term < t.currentTerm then (t, VoteReply(t.currentTerm, false))
    else if (t.votedFor == -1 || t.votedFor == a.candidate) && CandidateUpToDate(t, a) then
      (t.(votedFor := a.candidate), VoteReply(t.currentTerm, true))
    else (t, VoteReply(t.currentTerm, false))
  }

  function HandleVoteReply(s: Server, askedTerm: int, r: VoteReply): Server {
    if r.term > s.currentTerm then FollowerState(s, r.term)
    else if !s.role.Candidate? || s.currentTerm != askedTerm then s
    else if r.term == s.currentTerm && r.granted then
      var t := s.(votesNum := s.votesNum + 1);
      if t.votesNum > t.peers / 2 then LeaderState(t) else t
    else s
  }

  // ----- Replication -----

  /** Keeps old entries while their terms agree with the new ones; the first conflict drops the rest. */
  function Merge(have: Log, entries: Log): Log {
    if entries == [] then have
    else if have == [] || have[0].term != entries[0].term then entries
    else [have[0]] + Merge(have[1..], entries[1..])
  }

  function HandleAppend(s: Server, a: AppendArgs): (Server, AppendReply)
    requires s.log != []
  {
    var t :=
      if a.term > s.currentTerm || (a.term == s.currentTerm && s.role.Candidate?) then FollowerState(s, a.term)
      else s;
    if a.term < t.currentTerm then (t, AppendReply(t.currentTerm, false, false, 0, 0))
    else if a.prevLogIndex < t.lastIncludedIndex then
      (t, AppendReply(t.currentTerm, false, true, -1, t.lastIncludedIndex + 1))
    else if a.prevLogIndex > LastLogIndex(t) then
      (t, AppendReply(t.currentTerm, false, true, -1, LastLogIndex(t) + 1))
    else
      var pos := a.prevLogIndex - t.lastIncludedIndex;
      if TermAt(t, pos) != a.prevLogTerm then
        (t, AppendReply(t.currentTerm, false, true, TermAt(t, pos), SameTermFirst(t, pos) + t.lastIncludedIndex))
      else
        var last := LastLogIndex(t);
        var commit :=
          if a.leaderCommit <= t.commitIndex then t.commitIndex
          else if a.leaderCommit < last then a.leaderCommit
          else last;
        (t.(log := t.log[..pos + 1] + Merge(t.log[pos + 1..], a.entries), commitIndex := commit),
         AppendReply(t.currentTerm, true, false, 0, 0))
  }

  function MakeAppendArgs(s: Server, peer: nat): AppendArgs
    requires s.log != [] && peer < |s.nextIndex|
    requires s.nextIndex[peer] - 1 >= s.lastIncludedIndex
  {
    var pos := s.nextIndex[peer] - 1 - s.lastIncludedIndex;
    AppendArgs(s.currentTerm, s.me, s.nextIndex[peer] - 1,
               if pos < |s.log| then TermAt(s, pos) else -1,
               if LastLogIndex(s) >= s.nextIndex[peer] then s.log[pos + 1..] else [],
               s.commitIndex)
  }

  /** Before sending, a leader refreshes its own slots. */
  function MarkOwnSlots(s: Server): Server
    requires 0 <= s.me < |s.nextIndex| && s.me < |s.matchIndex|
  {
    s.(nextIndex := s.nextIndex[s.me := LastLogIndex(s) + 1], matchIndex := s.matchIndex[s.me := LastLogIndex(s)])
  }

  /** The largest real index below `i`, above 0, whose entry has the term; 0 when there is none. */
  function LastOfTerm(log: Log, i: nat, term: int): (last: nat)
    requires i <= |log|
    ensures last == 0 || (last < i && log[last].term == term)
    ensures forall k :: last < k < i ==> log[k].term != term
  {
    if i <= 1 then 0 else if log[i - 1].term == term then i - 1 else LastOfTerm(log, i - 1, term)
  }

  function BackedUpNext(s: Server, peer: nat, r: AppendReply): int
    requires peer < |s.matchIndex|
  {
    if r.xTerm == -1 then (if r.xIndex <= s.matchIndex[peer] then s.matchIndex[peer] + 1 else r.xIndex)
    else
      var i := LastOfTerm(s.log, |s.log|, r.xTerm);
      if i > 0 then s.lastIncludedIndex + i + 1 else r.xIndex
  }

  /** The peers, this one included, whose match index reaches the given index. */
  function Replicas(s: Server, index: int): set<int>
    requires s.peers == |s.matchIndex|
  {
    set j | 0 <= j < s.peers && (j == s.me || s.matchIndex[j] >= index)
  }

  predicate Majority(n: nat, q: set<int>) {
    |q| > n / 2
  }

  /** The first position, from `pos` on, holding an entry of the current term; the last one if there is none. */
  function FirstOfCurrentTerm(s: Server, pos: nat): (first: nat)
    requires pos < |s.log|
    ensures pos <= first < |s.log|
    ensures forall k :: pos <= k < first ==> TermAt(s, k) != s.currentTerm
    ensures TermAt(s, first) == s.currentTerm || first == |s.log| - 1
    decreases |s.log| - pos
  {
    if TermAt(s, pos) == s.currentTerm || pos == |s.log| - 1 then pos else FirstOfCurrentTerm(s, pos + 1)
  }

  /** Scans down from `index`, no further than `start` and the commit index, for one a majority has. */
  function BestCommit(s: Server, index: int, start: int): (n: int)
    requires s.peers == |s.matchIndex|
    ensures n == s.commitIndex || (s.commitIndex < n <= index && start <= n && Majority(s.peers, Replicas(s, n)))
    ensures forall k :: n < k <= index && start <= k ==> !Majority(s.peers, Replicas(s, k))
    decreases index - s.commitIndex
  {
    if index <= s.commitIndex || index < start then s.commitIndex
    else if Majority(s.peers, Replicas(s, index)) then index
    else BestCommit(s, index - 1, start)
  }

  function CountReplica(s: Server): int
    requires s.log != [] && s.peers == |s.matchIndex|
  {
    var n :=
      if LastLogTerm(s) != s.currentTerm then s.commitIndex
      else BestCommit(s, LastLogIndex(s), FirstOfCurrentTerm(s, 0) + s.lastIncludedIndex);
    Max(n, s.lastIncludedIndex)
  }

  function HandleAppendReply(s: Server, peer: nat, a: AppendArgs, r: AppendReply): Server
    requires s.log != [] && s.peers == |s.matchIndex| == |s.nextIndex| && peer < s.peers
  {
    if r.term > s.currentTerm then FollowerState(s, r.term)
    else if !s.role.Leader? || s.currentTerm != a.term then s
    else
      var t :=
        if r.success then
          var m := a.prevLogIndex + |a.entries|;
          s.(matchIndex := s.matchIndex[peer := m], nextIndex := s.nextIndex[peer := m + 1])
        else if r.inconsistent then s.(nextIndex := s.nextIndex[peer := BackedUpNext(s, peer, r)])
        else s;
      t.(commitIndex := CountReplica(t))
  }

  function Start(s: Server, command: Cmd): Server {
    if !s.role.Leader? then s
    else s.(log := s.log + [Entry(s.currentTerm, command, s.lastIncludedIndex + |s.log|)])
  }

  // ----- Snapshots -----

  function MakeSnapshotArgs(s: Server): SnapshotArgs {
    SnapshotArgs(s.currentTerm, s.me, s.lastIncludedIndex, s.lastIncludedTerm, s.snapshot)
  }

  /** The receiver's reply term, and whether the snapshot is handed on to the service. */
  function HandleSnapshot(s: Server, a: SnapshotArgs): (Server, int, bool) {
    if a.term > s.currentTerm then
      (FollowerState(s, a.term), a.term, a.lastIncludedIndex > s.commitIndex)
    else if s.currentTerm > a.term then (s, s.currentTerm, false)
    else (s, s.currentTerm, a.lastIncludedIndex > s.commitIndex)
  }

  function HandleSnapshotReply(s: Server, peer: nat, sentIndex: int, replyTerm: int): Server
    requires s.log != [] && s.peers == |s.matchIndex| == |s.nextIndex| && peer < s.peers
  {
    if replyTerm > s.currentTerm then FollowerState(s, replyTerm)
    else if !s.role.Leader? then s
    else
      var t :=
        if replyTerm == s.currentTerm && s.matchIndex[peer] <= sentIndex then
          s.(matchIndex := s.matchIndex[peer := sentIndex], nextIndex := s.nextIndex[peer := sentIndex + 1])
        else s;
      t.(commitIndex := CountReplica(t))
  }

  /** Does the trimmed log hold the entry a snapshot ends with? */
  predicate HoldsEntry(s: Server, index: int, term: int)
    requires s.log != []
  {
    s.lastIncludedIndex <= index <= LastLogIndex(s) && TermAt(s, index - s.lastIncludedIndex) == term
  }

  function CondInstallSnapshot(s: Server, index: int, term: int, data: Data): (Server, bool)
    requires s.log != []
  {
    if index <= s.commitIndex then (s, false)
    else
      var tail := if HoldsEntry(s, index, term) then s.log[index - s.lastIncludedIndex + 1..] else [];
      (s.(log := [HEAD] + tail, lastIncludedIndex := index, lastIncludedTerm := term, snapshot := data,
       commitIndex := index, lastApplied := Max(s.lastApplied, index)), true)
  }

  /** The service has a snapshot of everything up to `index`, an index it was handed by this peer. */
  function Snapshot(s: Server, index: int, data: Data): Server
    requires s.log != [] && index <= LastLogIndex(s)
  {
    if index <= s.lastIncludedIndex then s
    else
      var pos := index - s.lastIncludedIndex;
      s.(log := [HEAD] + s.log[pos + 1..], lastIncludedIndex := index, lastIncludedTerm := s.log[pos].term,
      snapshot := data, lastApplied := Max(s.lastApplied, index), commitIndex := Max(s.commitIndex, index))
  }

  /** A crash keeps currentTerm, votedFor, the log, the snapshot and where it ends; all else starts over. */
  function Restart(s: Server): Server {
    s.(role := Follower, commitIndex := s.lastIncludedIndex, lastApplied := s.lastIncludedIndex, votesNum := 0,
    nextIndex := seq(s.peers, i => 1), matchIndex := seq(s.peers, i => 0))
  }

  /** A peer that has never saved anything, under a service that starts in the given state. */
  function Fresh(me: int, peers: nat, start: Data): Server {
    Server(me, peers, Follower, [HEAD], 0, -1, 0, 0, 0, seq(peers, i => 1), seq(peers, i => 0), 0, 0, start)
  }
}
