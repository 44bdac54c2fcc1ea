/** The peer as the code has it: one object whose handlers update its fields in place. */
module RaftPeer {
  import opened Service
  import opened RaftServer

  class Raft {
    const me: int
    const peers: nat
    var role: Role
    var log: Log
    var currentTerm: int
    var votedFor: int
    var commitIndex: int
    var lastApplied: int
    var votesNum: int
    var nextIndex: seq<int>
    var matchIndex: seq<int>
    var lastIncludedIndex: int
    var lastIncludedTerm: int
    var snapshot: Data

    /** The peer's state as a value. */
    ghost function State(): Server
      reads this
    {
      Server(me, peers, role, log, currentTerm, votedFor, commitIndex, lastApplied, votesNum, nextIndex, matchIndex,
             lastIncludedIndex, lastIncludedTerm, snapshot)
    }

    ghost predicate Valid()
      reads this
    {
      log != [] && |nextIndex| == |matchIndex| == peers && 0 <= me < peers
    }

    constructor (me: int, peers: nat, start: Data)
      requires 0 <= me < peers
      ensures Valid() && State() == Fresh(me, peers, start)
    {
      this.me, this.peers := me, peers;
      role, log, currentTerm, votedFor := Follower, [HEAD], 0, -1;
      commitIndex, lastApplied, votesNum := 0, 0, 0;
      nextIndex, matchIndex := seq(peers, i => 1), seq(peers, i => 0);
      lastIncludedIndex, lastIncludedTerm, snapshot := 0, 0, start;
    }

    method GetLogAt(pos: nat) returns (found: bool, index: int, term: int)
      requires Valid()
      ensures found == (pos < |log|)
      ensures found ==> index == lastIncludedIndex + pos && term == TermAt(State(), pos)
      ensures !found ==> index == -1 && term == -1
    {
      if pos >= |log| {
        return false, -1, -1;
      } else if pos == 0 {
        return true, lastIncludedIndex, lastIncludedTerm;
      } else {
        return true, lastIncludedIndex + pos, log[pos].term;
      }
    }

    method GetSameTermFirst(pos: nat) returns (first: nat)
      requires Valid() && pos < |log|
      ensures first == SameTermFirst(State(), pos)
    {
      if pos == 0 {
        return 0;
      }
      var _, _, term := GetLogAt(pos);
      first := pos;
      while first > 0 && log[first - 1].term == term
        invariant first <= pos
        invariant FirstOfRun(log, first, term) == FirstOfRun(log, pos, term)
      {
        first := first - 1;
      }
    }

    // ----- Role changes -----

    method BecomeFollower(term: int)
      requires Valid()
      modifies this
      ensures Valid() && State() == FollowerState(old(State()), term)
    {
      role, currentTerm, votedFor, votesNum := Follower, term, -1, 0;
    }

    method BecomeCandidate()
      requires Valid()
      modifies this
      ensures Valid() && State() == CandidateState(old(State()))
    {
      role, currentTerm, votedFor, votesNum := Candidate, currentTerm + 1, me, 1;
    }

    method BecomeLeader()
      requires Valid()
      modifies this
      ensures Valid() && State() == LeaderState(old(State()))
    {
      role := Leader;
      var i := 0;
      while i < peers
        invariant i <= peers && Valid()
        invariant forall k :: 0 <= k < i ==> nextIndex[k] == LastLogIndex(old(State())) + 1 && matchIndex[k] == -1
        invariant State() == old(State()).(role := Leader, nextIndex := nextIndex, matchIndex := matchIndex)
      {
        var _, last, _ := GetLogAt(|log| - 1);
        nextIndex := nextIndex[i := last + 1];
        matchIndex := matchIndex[i := -1];
        i := i + 1;
      }
    }

    // ----- Elections -----

    method RequestVote(a: VoteArgs) returns (r: VoteReply)
      requires Valid()
      modifies this
      ensures Valid() && (State(), r) == HandleVote(old(State()), a)
    {
      if a.term > currentTerm {
        BecomeFollower(a.term);
      }
      if a.term < currentTerm {
        return VoteReply(currentTerm, false);
      }
      var _, lastIndex, lastTerm := GetLogAt(|log| - 1);
      var upToDate := a.lastLogTerm > lastTerm || (a.lastLogTerm == lastTerm && a.lastLogIndex >= lastIndex);
      if (votedFor == -1 || votedFor == a.candidate) && upToDate {
        r := VoteReply(currentTerm, true);
        votedFor := a.candidate;
      } else {
        r := VoteReply(currentTerm, false);
      }
    }

    method VoteReceived(askedTerm: int, r: VoteReply)
      requires Valid()
      modifies this
      ensures Valid() && State() == HandleVoteReply(old(State()), askedTerm, r)
    {
      if r.term > currentTerm {
        BecomeFollower(r.term);
        return;
      }
      if role != Candidate || currentTerm != askedTerm {
        return;
      }
      if r.term == currentTerm && r.granted {
        votesNum := votesNum + 1;
        if votesNum > peers / 2 {
          BecomeLeader();
        }
      }
    }

    // ----- Replication -----

    method AppendEntries(a: AppendArgs) returns (r: AppendReply)
      requires Valid()
      modifies this
      ensures Valid() && (State(), r) == HandleAppend(old(State()), a)
      ensures r.success ==>
        && commitIndex <= Max(old(commitIndex), a.leaderCommit)
        && (commitIndex >= a.leaderCommit || commitIndex >= LastLogIndex(old(State())))
    {
      hide Merge, SameTermFirst;
      if a.term > currentTerm || (a.term == currentTerm && role == Candidate) {
        BecomeFollower(a.term);
      }
      if a.term < currentTerm {
        return AppendReply(currentTerm, false, false, 0, 0);
      }
      var _, lastLogIndex, _ := GetLogAt(|log| - 1);
      if a.prevLogIndex < lastIncludedIndex {
        return AppendReply(currentTerm, false, true, -1, lastIncludedIndex + 1);
      }
      if a.prevLogIndex > lastLogIndex {
        return AppendReply(currentTerm, false, true, -1, lastLogIndex + 1);
      }
      var pos := a.prevLogIndex - lastIncludedIndex;
      var _, _, prevTerm := GetLogAt(pos);
      if prevTerm != a.prevLogTerm {
        var first := GetSameTermFirst(pos);
        return AppendReply(currentTerm, false, true, prevTerm, first + lastIncludedIndex);
      }
      Splice(pos, a.entries);
      FollowCommit(a.leaderCommit, lastLogIndex);
      r := AppendReply(currentTerm, true, false, 0, 0);
    }

    /** Follows the leader's commit index, up to the last index the log had before the append. */
    method FollowCommit(leaderCommit: int, lastLogIndex: int)
      modifies this`commitIndex
      ensures commitIndex ==
        if leaderCommit <= old(commitIndex) then old(commitIndex)
        else if leaderCommit < lastLogIndex then leaderCommit
        else lastLogIndex
      ensures old(commitIndex) <= lastLogIndex ==> old(commitIndex) <= commitIndex <= lastLogIndex
    {
      if leaderCommit > commitIndex {
        if leaderCommit < lastLogIndex {
          commitIndex := leaderCommit;
        } else {
          commitIndex := lastLogIndex;
        }
      }
    }

    /** How many of the entries the log already has a slot for. */
    static function Covered(len: nat, pos: nat, entries: Log): nat
      requires pos < len
    {
      if len - pos - 1 < |entries| then len - pos - 1 else |entries|
    }

    /** Drops the old entries from the first conflict on, then appends what the log lacks. */
    method Splice(pos: nat, entries: Log)
      requires Valid() && pos < |log|
      modifies this`log
      ensures log == old(log)[..pos + 1] + Merge(old(log)[pos + 1..], entries)
    {
      DropConflict(pos, entries);
      AppendMissing(pos, entries);
    }

    method DropConflict(pos: nat, entries: Log)
      requires pos < |log|
      modifies this`log
      ensures pos < |log|
      ensures old(log)[..pos + 1] + Merge(old(log)[pos + 1..], entries) == log + entries[Covered(|log|, pos, entries)..]
    {
      hide Merge;
      ghost var goal := log[..pos + 1] + Merge(log[pos + 1..], entries);
      var i, j := 0, pos + 1;
      assert entries[0..] == entries;
      while i < |entries| && j < |log|
        invariant 0 <= i <= |entries| && j == pos + 1 + i <= |log| && log == old(log)
        invariant goal == log[..j] + Merge(log[j..], entries[i..])
      {
        if entries[i].term != log[j].term {
          MergeConflict(log[j..], entries[i..]);
          log := log[..j];
          return;
        }
        MergeOne(log, entries, i, j);
        i, j := i + 1, j + 1;
      }
      MergeDone(log[j..], entries[i..]);
      assert log[..j] + log[j..] == log;
    }

    method AppendMissing(pos: nat, entries: Log)
      requires pos < |log|
      modifies this`log
      ensures log == old(log) + entries[Covered(|old(log)|, pos, entries)..]
    {
      var start := pos + 1;
      if start >= |log| {
        log := log + entries;
      } else {
        var k := 0;
        while k < |entries|
          invariant 0 <= k <= |entries| && |log| >= start
          invariant log == if start + k <= |old(log)| then old(log) else old(log) + entries[|old(log)| - start..k]
        {
          if start + k >= |log| {
            log := log + [entries[k]];
          }
          k := k + 1;
        }
      }
    }

    static lemma MergeConflict(rest: Log, entries: Log)
      requires rest != [] && entries != [] && entries[0].term != rest[0].term
      ensures Merge(rest, entries) == entries
    {
    }

    static lemma MergeDone(rest: Log, entries: Log)
      requires rest == [] || entries == []
      ensures Merge(rest, entries) == if entries == [] then rest else entries
    {
    }

    static lemma MergeOne(l: Log, entries: Log, i: nat, j: nat)
      requires i < |entries| && j < |l| && entries[i].term == l[j].term
      ensures l[..j] + Merge(l[j..], entries[i..]) == l[..j + 1] + Merge(l[j + 1..], entries[i + 1..])
    {
      assert l[j..][1..] == l[j + 1..] && entries[i..][1..] == entries[i + 1..];
    }

    /** Counts, from the end of the log down, how many peers have reached each index. */
    method CountReplicas() returns (n: int)
      requires Valid()
      ensures n == CountReplica(State())
      ensures LastLogTerm(State()) == currentTerm ==>
        forall index {:trigger Replicas(State(), index)} ::
          HoldsEntry(State(), index, currentTerm) && Majority(peers, Replicas(State(), index)) ==> index <= n
    {
      var _, _, lastTerm := GetLogAt(|log| - 1);
      if lastTerm != currentTerm {
        if lastIncludedIndex >= commitIndex {
          return lastIncludedIndex;
        } else {
          return commitIndex;
        }
      }
      var start := FirstOwn();
      n := ScanDown(start);
      if n < lastIncludedIndex {
        n := lastIncludedIndex;
      }
    }

    method ScanDown(start: nat) returns (n: int)
      requires Valid()
      ensures n == BestCommit(State(), LastLogIndex(State()), start + lastIncludedIndex)
    {
      hide Replicas;
      n := commitIndex;
      var k := |log| - 1;
      while k + lastIncludedIndex > commitIndex && k >= start
        invariant n == commitIndex && -1 <= k < |log|
        invariant BestCommit(State(), LastLogIndex(State()), start + lastIncludedIndex)
               == BestCommit(State(), k + lastIncludedIndex, start + lastIncludedIndex)
        decreases k
      {
        var replica := CountAt(k + lastIncludedIndex);
        if replica > peers / 2 {
          n := k + lastIncludedIndex;
          break;
        }
        k := k - 1;
      }
    }

    method FirstOwn() returns (start: nat)
      requires Valid()
      ensures start == FirstOfCurrentTerm(State(), 0)
    {
      start := |log| - 1;
      var i := 0;
      while i < |log|
        invariant 0 <= i <= |log| && start == |log| - 1
        invariant forall k :: 0 <= k < i ==> TermAt(State(), k) != currentTerm
      {
        var _, index, term := GetLogAt(i);
        if term == currentTerm {
          return index - lastIncludedIndex;
        }
        i := i + 1;
      }
    }

    method CountAt(index: int) returns (replica: nat)
      requires Valid()
      ensures replica == |Replicas(State(), index)|
    {
      replica := 1;
      var j := 0;
      ghost var seen: set<int> := {me};
      while j < peers
        invariant 0 <= j <= peers && |seen| == replica
        invariant seen == (set p | p in Replicas(State(), index) && (p < j || p == me))
      {
        if j != me && matchIndex[j] >= index {
          replica := replica + 1;
          assert j !in seen;
          seen := seen + {j};
        }
        j := j + 1;
      }
      assert seen == Replicas(State(), index);
    }

    method BackUp(peer: nat, r: AppendReply)
      requires Valid() && peer < peers
      modifies this
      ensures Valid()
      ensures State() == old(State()).(nextIndex := old(nextIndex)[peer := BackedUpNext(old(State()), peer, r)])
      ensures r.xTerm == -1 ==> nextIndex[peer] == Max(r.xIndex, matchIndex[peer] + 1)
    {
      if r.xTerm == -1 {
        nextIndex := nextIndex[peer := r.xIndex];
        if nextIndex[peer] <= matchIndex[peer] {
          nextIndex := nextIndex[peer := matchIndex[peer] + 1];
        }
      } else {
        var target := r.xIndex;
        var i := |log| - 1;
        while i > 0
          invariant unchanged(this) && 0 <= i < |log| && target == r.xIndex
          invariant LastOfTerm(log, |log|, r.xTerm) == LastOfTerm(log, i + 1, r.xTerm)
        {
          var _, index, term := GetLogAt(i);
          if term == r.xTerm {
            target := index + 1;
            break;
          }
          i := i - 1;
        }
        nextIndex := nextIndex[peer := target];
      }
    }

    method AppendAnswered(peer: nat, a: AppendArgs, r: AppendReply)
      requires Valid() && peer < peers
      modifies this
      ensures Valid() && State() == HandleAppendReply(old(State()), peer, a, r)
    {
      if r.term > currentTerm {
        BecomeFollower(r.term);
        return;
      }
      if role != Leader || currentTerm != a.term {
        return;
      }
      if r.success {
        matchIndex := matchIndex[peer := a.prevLogIndex + |a.entries|];
        nextIndex := nextIndex[peer := matchIndex[peer] + 1];
      } else if r.inconsistent {
        BackUp(peer, r);
      }
      commitIndex := CountReplicas();
    }

    /** What the leader sends a peer whose next index is past its snapshot. */
    method PrepareAppend(peer: nat) returns (a: AppendArgs)
      requires Valid() && peer < peers && nextIndex[peer] - 1 >= lastIncludedIndex
      modifies this`nextIndex, this`matchIndex
      ensures Valid() && State() == MarkOwnSlots(old(State()))
        && (peer != me ==> a == MakeAppendArgs(old(State()), peer))
    {
      var prev := nextIndex[peer] - 1;
      var _, _, prevTerm := GetLogAt(prev - lastIncludedIndex);
      var _, last, _ := GetLogAt(|log| - 1);
      var entries := [];
      if last >= nextIndex[peer] {
        entries := log[nextIndex[peer] - lastIncludedIndex..];
      }
      a := AppendArgs(currentTerm, me, prev, prevTerm, entries, commitIndex);
      nextIndex := nextIndex[me := last + 1];
      matchIndex := matchIndex[me := last];
    }

    method Propose(command: Cmd)
      requires Valid()
      modifies this
      ensures Valid() && State() == Start(old(State()), command)
    {
      if role != Leader {
        return;
      }
      log := log + [Entry(currentTerm, command, lastIncludedIndex + |log|)];
    }

    // ----- Snapshots -----

    method InstallSnapshot(a: SnapshotArgs) returns (replyTerm: int, handOn: bool)
      requires Valid()
      modifies this
      ensures Valid() && (State(), replyTerm, handOn) == HandleSnapshot(old(State()), a)
    {
      if a.term > currentTerm {
        BecomeFollower(a.term);
      } else if currentTerm > a.term {
        return currentTerm, false;
      }
      if a.lastIncludedIndex <= commitIndex {
        return currentTerm, false;
      }
      return currentTerm, true;
    }

    method SnapshotAnswered(peer: nat, sentIndex: int, replyTerm: int)
      requires Valid() && peer < peers
      modifies this
      ensures Valid() && State() == HandleSnapshotReply(old(State()), peer, sentIndex, replyTerm)
    {
      if replyTerm > currentTerm {
        BecomeFollower(replyTerm);
        return;
      }
      if role != Leader {
        return;
      }
      if replyTerm == currentTerm {
        if matchIndex[peer] <= sentIndex {
          matchIndex := matchIndex[peer := sentIndex];
          nextIndex := nextIndex[peer := matchIndex[peer] + 1];
        }
      }
      commitIndex := CountReplicas();
    }

    method CondInstall(term: int, index: int, data: Data) returns (installed: bool)
      requires Valid()
      modifies this
      ensures Valid() && (State(), installed) == CondInstallSnapshot(old(State()), index, term, data)
    {
      if index <= commitIndex {
        return false;
      }
      var trim := |log|;
      var i := |log| - 1;
      while i >= 0
        invariant unchanged(this) && -1 <= i < |log| && trim == |log|
        invariant forall k :: i < k < |log| ==> !(TermAt(State(), k) == term && lastIncludedIndex + k == index)
      {
        var _, entryIndex, entryTerm := GetLogAt(i);
        if entryTerm == term && entryIndex == index {
          trim := i + 1;
          break;
        }
        i := i - 1;
      }
      assert HoldsEntry(State(), index, term) ==> trim == index - lastIncludedIndex + 1 by {
        if HoldsEntry(State(), index, term) {
          assert TermAt(State(), index - lastIncludedIndex) == term;
        }
      }
      log := [HEAD] + log[trim..];
      lastIncludedIndex, lastIncludedTerm := index, term;
      if commitIndex < lastIncludedIndex {
        commitIndex := lastIncludedIndex;
      }
      if lastApplied < lastIncludedIndex {
        lastApplied := lastIncludedIndex;
      }
      snapshot := data;
      return true;
    }

    method TakeSnapshot(index: int, data: Data)
      requires Valid() && index <= LastLogIndex(State())
      modifies this
      ensures Valid() && State() == Snapshot(old(State()), index, data)
    {
      if index <= lastIncludedIndex {
        return;
      }
      var entryIndex, entryTerm, pos := 0, 0, 0;
      var i := 0;
      while i < |log|
        invariant unchanged(this) && 0 <= i <= index - lastIncludedIndex
      {
        var _, e, t := GetLogAt(i);
        entryIndex, entryTerm := e, t;
        if entryIndex == index {
          pos := i;
          break;
        }
        i := i + 1;
      }
      lastIncludedIndex, lastIncludedTerm := entryIndex, entryTerm;
      if lastApplied < index {
        lastApplied := index;
      }
      if commitIndex < index {
        commitIndex := index;
      }
      log := [HEAD] + log[pos + 1..];
      snapshot := data;
    }

    /** Make, on a peer that finds its saved state: what was never saved starts over. */
    method Recover()
      requires Valid()
      modifies this
      ensures Valid() && State() == Restart(old(State()))
    {
      role, votesNum := Follower, 0;
      nextIndex, matchIndex := seq(peers, i => 1), seq(peers, i => 0);
      lastApplied := lastIncludedIndex;
      commitIndex := lastIncludedIndex;
    }
  }
}
