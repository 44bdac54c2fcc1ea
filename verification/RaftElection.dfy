/** Election steps: standing for election, voting, counting votes. Election Safety. */
module RaftElection {
  import opened RaftServer
  import opened RaftCluster
  import opened RaftHistory
  import opened RaftInvariant
  import opened RaftFrame

  /** Turning follower, for a later term or because a leader of this term has spoken. */
  lemma FollowerOk(h: History, n: nat, s: int, node: Node, g: Shadow, term: int)
    requires HistoryOk(h, n) && NodeOk(h, n, s, node, g)
    requires term > node.rf.currentTerm || (term == node.rf.currentTerm && node.rf.role.Candidate?)
    ensures NodeOk(h, n, s, node.(rf := FollowerState(node.rf, term)), g)
  {
    hide Body, Standing, LeaderOk, CandidacyOk, VoteOk;
    SameHistory(h, s, term);
    BodyMono(h, h, n, s, node, node.(rf := FollowerState(node.rf, term)), g, term);
    ClearableVote(h, n, s, node, term, g.full);
    StepDown(h, n, s, node, term, g.full);
  }

  /** A leader of the term is someone else, or the term is new. */
  lemma StepDown(h: History, n: nat, s: int, node: Node, term: int, l: Log)
    requires |node.rf.matchIndex| == n && Standing(h, n, s, node, l) && (s, term) !in h.votes
    requires term > node.rf.currentTerm || (term == node.rf.currentTerm && node.rf.role.Candidate?)
    ensures Standing(h, n, s, node.(rf := FollowerState(node.rf, term)), l)
  {
  }

  /** No vote that was granted to another is lost by it. */
  lemma ClearableVote(h: History, n: nat, s: int, node: Node, term: int, l: Log)
    requires HistoryOk(h, n) && |node.rf.matchIndex| == n && Standing(h, n, s, node, l)
    requires term > node.rf.currentTerm || (term == node.rf.currentTerm && node.rf.role.Candidate?)
    ensures (s, term) !in h.votes
  {
    assert (s, term) in h.votes ==> VoteOk(h, n, s, term);
  }

  // ----- Standing for election -----

  ghost function AddCandidacy(h: History, s: int, t: int, l: Log): History {
    h.(cand := h.cand[(s, t) := l])
  }

  lemma CandidacyHistory(h: History, n: nat, s: int, node: Node, g: Shadow)
    requires HistoryOk(h, n) && NodeOk(h, n, s, node, g) && 0 <= s < n
    ensures var t := node.rf.currentTerm + 1;
            var h2 := AddCandidacy(h, s, t, g.full);
            Extends(h, h2, s, t) && HistoryOk(h2, n) && (s, t) !in h.cand && (s, t) !in h.votes
  {
    hide GoodLog, LeaderOk, Kept, ViewOk, DeliveryOk, SnapshotsOk, CandidateRole, MatchOk;
    var t := node.rf.currentTerm + 1;
    var h2 := AddCandidacy(h, s, t, g.full);
    NothingAfterNow(h, n, s, node.rf);
    assert Extends(h, h2, s, t);
    GoodMono(h, h2, g.full, s, t);
    KeptMono(h, h2, n, s, g.full, t - 1, t - 1, s, t);
    if t in h.lead {
      assert LeaderOk(h, n, t);
      LeaderUntouched(h, h2, n, t, s, t);
    }
    HistoryFrame(h, h2, n, s, t);
  }

  lemma LeaderUntouched(h: History, h2: History, n: nat, u: int, s: int, t: int)
    requires Extends(h, h2, s, t) && AcksValid(h, n) && AcksValid(h2, n) && NothingAfter(h, s, t)
    requires u in h.lead && LeaderOk(h, n, u) && h2.lead == h.lead && h2.ack == h.ack
    requires h2.votes == h.votes || u != t || h.lead[u].id != s
    ensures LeaderOk(h2, n, u)
  {
    hide GoodLog, VoterOk, OwnTail;
    LeaderFrame(h, h2, n, u, s, t);
  }

  lemma TimeoutOk(h: History, n: nat, s: int, node: Node, g: Shadow) returns (h2: History)
    requires HistoryOk(h, n) && NodeOk(h, n, s, node, g) && 0 <= s < n
    ensures var node2 := node.(rf := CandidateState(node.rf), awaiting := Range(n) - {s});
            && h2 == AddCandidacy(h, s, node2.rf.currentTerm, g.full)
            && Extends(h, h2, s, node2.rf.currentTerm) && HistoryOk(h2, n)
            && NodeOk(h2, n, s, node2, g)
  {
    hide Body, LeaderOk, CandidacyOk, VoteOk, HistoryOk, Extends, Standing;
    var t := node.rf.currentTerm + 1;
    h2 := AddCandidacy(h, s, t, g.full);
    CandidacyHistory(h, n, s, node, g);
    var node2 := node.(rf := CandidateState(node.rf), awaiting := Range(n) - {s});
    HistoryAcks(h, n);
    HistoryAcks(h2, n);
    BodyMono(h, h2, n, s, node, node2, g, t);
    CandidateStanding(h, n, s, node, g.full);
  }

  lemma HistoryAcks(h: History, n: nat)
    requires HistoryOk(h, n)
    ensures AcksValid(h, n)
  {
    hide LeaderOk, CandidacyOk, VoteOk;
  }

  lemma CandidateStanding(h: History, n: nat, s: int, node: Node, l: Log)
    requires |node.rf.matchIndex| == n && Standing(h, n, s, node, l) && 0 <= s < n && node.rf.me == s
    ensures var node2 := node.(rf := CandidateState(node.rf), awaiting := Range(n) - {s});
            Standing(AddCandidacy(h, s, node2.rf.currentTerm, l), n, s, node2, l)
  {
  }

  // ----- Voting -----

  ghost function AddVote(h: History, s: int, t: int, c: int, l: Log): History {
    if (s, t) in h.votes then h else h.(votes := h.votes[(s, t) := Vote(c, l)])
  }

  /** While a term has no leader, no leader of it can have overruled an acknowledgement. */
  lemma KeptBeforeElection(h: History, n: nat, s: int, l: Log, t: int)
    requires AcksValid(h, n) && t !in h.lead && Kept(h, n, s, l, t)
    ensures Kept(h, n, s, l, t - 1)
  {
    var b := t - 1;
    forall u, i | (s, u) in h.ack && u <= b && 0 <= i <= h.ack[(s, u)]
      ensures Holds(h, l, u, i, b)
    {
      assert Holds(h, l, u, i, t);
    }
  }

  /** The vote was free or already this candidate's: the voter neither leads nor campaigns in this term. */
  lemma FreeVote(h: History, n: nat, s: int, node: Node, l: Log, c: int)
    requires |node.rf.matchIndex| == n && Standing(h, n, s, node, l) && 0 <= s && c != s
    requires node.rf.votedFor == -1 || node.rf.votedFor == c
    ensures node.rf.role.Follower?
    ensures node.rf.currentTerm in h.lead ==> h.lead[node.rf.currentTerm].id != s
    ensures (s, node.rf.currentTerm) in h.votes ==> h.votes[(s, node.rf.currentTerm)].candidate == node.rf.votedFor
  {
  }

  lemma VoteHistory(h: History, n: nat, s: int, node: Node, g: Shadow, c: int)
    requires HistoryOk(h, n) && NodeOk(h, n, s, node, g) && 0 <= s < n && c != s
    requires node.rf.votedFor == -1 || node.rf.votedFor == c
    requires (c, node.rf.currentTerm) in h.cand && UpToDate(h.cand[(c, node.rf.currentTerm)], g.full)
    ensures var t := node.rf.currentTerm;
            var h2 := AddVote(h, s, t, c, g.full);
            Extends(h, h2, s, t) && HistoryOk(h2, n)
  {
    hide GoodLog, LeaderOk, Kept, UpToDate, CandidateRole, SnapshotsOk, DeliveryOk, CommittedPrefix, ViewOk, MatchOk;
    var t := node.rf.currentTerm;
    if (s, t) !in h.votes {
      var h2 := AddVote(h, s, t, c, g.full);
      NothingAfterNow(h, n, s, node.rf);
      FreeVote(h, n, s, node, g.full, c);
      assert Extends(h, h2, s, t);
      GoodMono(h, h2, g.full, s, t);
      if t in h.lead {
        assert LeaderOk(h, n, t);
        LeaderUntouched(h, h2, n, t, s, t);
      } else {
        KeptBeforeElection(h, n, s, g.full, t);
        KeptMono(h, h2, n, s, g.full, t - 1, t - 1, s, t);
      }
      HistoryFrame(h, h2, n, s, t);
    }
  }

  lemma GrantOk(h: History, n: nat, s: int, node: Node, g: Shadow, c: int) returns (h2: History)
    requires HistoryOk(h, n) && NodeOk(h, n, s, node, g) && 0 <= s < n && c != s
    requires node.rf.votedFor == -1 || node.rf.votedFor == c
    requires (c, node.rf.currentTerm) in h.cand && UpToDate(h.cand[(c, node.rf.currentTerm)], g.full)
    ensures var node2 := node.(rf := node.rf.(votedFor := c));
            && Extends(h, h2, s, node.rf.currentTerm) && HistoryOk(h2, n) && NodeOk(h2, n, s, node2, g)
            && h2.said == h.said
            && (s, node.rf.currentTerm) in h2.votes && h2.votes[(s, node.rf.currentTerm)].candidate == c
  {
    hide UpToDate, Body;
    var t := node.rf.currentTerm;
    h2 := AddVote(h, s, t, c, g.full);
    VoteHistory(h, n, s, node, g, c);
    FreeVote(h, n, s, node, g.full, c);
    assert (s, t) in h.votes ==> VoteOk(h, n, s, t) && CandidacyOk(h, n, h.votes[(s, t)].candidate, t);
    BodyMono(h, h2, n, s, node, node.(rf := node.rf.(votedFor := c)), g, t);
  }

  lemma ViewEnds(rf: Server, g: Shadow)
    requires ViewOk(rf, g)
    ensures rf.log != [] && LastLogIndex(rf) == |g.full| && LastLogTerm(rf) == TermOf(g.full, |g.full|)
  {
  }

  lemma OnVoteOk(h: History, nodes: seq<Node>, s: int, g: Shadow, v: VoteArgs) returns (h2: History, t: int)
    requires HistoryOk(h, |nodes|) && 0 <= s < |nodes| && NodeOk(h, |nodes|, s, nodes[s], g)
    requires MessageOk(h, nodes, VoteRequest(v)) && v.candidate != s
    ensures var (rf, r) := HandleVote(nodes[s].rf, v);
            var node2 := nodes[s].(rf := rf);
            && Extends(h, h2, s, t) && HistoryOk(h2, |nodes|) && NodeOk(h2, |nodes|, s, node2, g)
            && h2.said == h.said
            && MessageOk(h2, nodes[s := node2], VoteAnswer(s, v.candidate, v.term, r))
            && nodes[s].rf.currentTerm <= rf.currentTerm && rf.lastIncludedIndex == nodes[s].rf.lastIncludedIndex
  {
    hide Body, Standing, Extends;
    var node := nodes[s];
    var n := |nodes|;
    var node1 := node;
    if v.term > node.rf.currentTerm {
      FollowerOk(h, n, s, node, g, v.term);
      node1 := node.(rf := FollowerState(node.rf, v.term));
    }
    h2, t := h, node1.rf.currentTerm;
    SameHistory(h, s, t);
    if v.term == node1.rf.currentTerm && (node1.rf.votedFor == -1 || node1.rf.votedFor == v.candidate)
       && CandidateUpToDate(node1.rf, v) {
      assert ViewOk(node1.rf, g) by { BodyView(h, n, s, node1, g); }
      ViewEnds(node1.rf, g);
      h2 := GrantOk(h, n, s, node1, g, v.candidate);
    }
  }

  lemma BodyView(h: History, n: nat, s: int, node: Node, g: Shadow)
    requires AcksValid(h, n) && Body(h, n, s, node, g)
    ensures ViewOk(node.rf, g)
  {
  }

  // ----- Counting votes -----

  lemma VotingSame(h: History, s: int, rf: Server, rf2: Server)
    requires VotingOk(h, s, rf) && rf2.currentTerm == rf.currentTerm && rf2.votedFor == rf.votedFor
      && rf2.role == rf.role
    ensures VotingOk(h, s, rf2)
  {
  }

  lemma AwaitingShrinks(h: History, n: nat, s: int, node: Node, g: Shadow, p: int)
    requires AcksValid(h, n) && NodeOk(h, n, s, node, g)
    ensures NodeOk(h, n, s, node.(awaiting := node.awaiting - {p}), g)
  {
    hide Body;
    var node2 := node.(awaiting := node.awaiting - {p});
    SameHistory(h, s, 0);
    BodyMono(h, h, n, s, node, node2, g, 0);
    var votes := Granters(h, n, s, node.rf.currentTerm);
    SubsetSize(votes - node.awaiting, votes - node2.awaiting);
  }

  ghost function Supporters(h: History, n: nat, s: int, t: int): map<int, Log>
    requires (s, t) in h.cand
  {
    map v | v in Granters(h, n, s, t) + {s} :: if v == s then h.cand[(s, t)] else h.votes[(v, t)].log
  }

  /** Election Safety: a candidate with a majority of votes cannot coexist with a leader of its term. */
  lemma ElectionSafety(h: History, n: nat, s: int, node: Node, l: Log)
    requires HistoryOk(h, n) && |node.rf.matchIndex| == n && Standing(h, n, s, node, l)
    requires 0 <= s < n && node.rf.role.Candidate? && Majority(n, Granters(h, n, s, node.rf.currentTerm) + {s})
    ensures node.rf.currentTerm !in h.lead
  {
    hide LeaderOk, CandidacyOk, VoteOk, MatchOk, LeaderRole, CandidateRole, GoodLog, Kept, HistoryOk;
    var t := node.rf.currentTerm;
    CandidateVotesForItself(h, n, s, node, l);
    if t in h.lead {
      LeaderVotes(h, n, t);
      hide Standing;
      var v := MajoritiesMeet(n, Granters(h, n, s, t) + {s}, h.lead[t].voters.Keys);
      SharedVoter(h, n, s, node, l, v);
    }
  }

  /** Who voted for both can only have voted for one: the candidate is the leader, and so no candidate. */
  lemma SharedVoter(h: History, n: nat, s: int, node: Node, l: Log, v: int)
    requires HistoryOk(h, n) && |node.rf.matchIndex| == n && Standing(h, n, s, node, l) && node.rf.votedFor == s
    requires var t := node.rf.currentTerm; t in h.lead && v in Granters(h, n, s, t) + {s} && v in h.lead[t].voters
    ensures h.lead[node.rf.currentTerm].id == s && !node.rf.role.Candidate?
  {
    hide HistoryOk, MatchOk, LeaderRole, CandidateRole;
    LeaderVotes(h, n, node.rf.currentTerm);
  }

  lemma LeaderVotes(h: History, n: nat, t: int)
    requires HistoryOk(h, n) && t in h.lead
    ensures var r := h.lead[t];
            && r.voters.Keys <= Range(n) && Majority(n, r.voters.Keys) && (r.id, t) !in h.votes
            && forall v {:trigger v in r.voters} :: v in r.voters && v != r.id ==>
                 (v, t) in h.votes && h.votes[(v, t)].candidate == r.id
  {
    var r := h.lead[t];
    assert LeaderOk(h, n, t);
    forall v | v in r.voters && v != r.id
      ensures (v, t) in h.votes && h.votes[(v, t)].candidate == r.id
    {
      assert VoterOk(h, n, t, v);
    }
  }

  /** Its supporters' logs are all the election restriction asks for. */
  lemma SupportersElect(h: History, n: nat, s: int, t: int)
    requires HistoryOk(h, n) && (s, t) in h.cand && t !in h.lead
    requires Majority(n, Granters(h, n, s, t) + {s})
    ensures Electable(h, n, t, h.cand[(s, t)], Supporters(h, n, s, t))
  {
    hide GoodLog, Kept;
    var voters := Supporters(h, n, s, t);
    var l := h.cand[(s, t)];
    assert CandidacyOk(h, n, s, t);
    assert voters.Keys == Granters(h, n, s, t) + {s};
    forall v | v in voters
      ensures GoodLog(h, voters[v]) && UpToDate(l, voters[v]) && Kept(h, n, v, voters[v], t - 1)
    {
      assert v != s ==> VoteOk(h, n, v, t);
    }
  }

  /** The log a winner campaigned with is still its log: had a snapshot replaced it, it could not have won. */
  lemma WinnerKeptItsLog(h: History, n: nat, s: int, node: Node, l: Log)
    requires HistoryOk(h, n) && |node.rf.matchIndex| == n && Standing(h, n, s, node, l)
    requires 0 <= s < n && node.rf.role.Candidate? && Majority(n, Granters(h, n, s, node.rf.currentTerm) + {s})
    ensures (s, node.rf.currentTerm) in h.cand && l == h.cand[(s, node.rf.currentTerm)]
  {
    hide LeaderOk, Electable, VotingOk, MatchOk;
    var t := node.rf.currentTerm;
    ElectionSafety(h, n, s, node, l);
    if l != h.cand[(s, t)] {
      var t1, i :| t1 < t && Missing(h, n, h.cand[(s, t)], t1, i);
      SupportersElect(h, n, s, t);
      forall u | u in h.lead && t1 < u < t
        ensures h.lead[t1].log[..i] <= h.lead[u].init
      {
        LeaderCompleteness(h, n, t1, i, u);
      }
      VotersBringCommitted(h, n, t1, i, t, h.cand[(s, t)], Supporters(h, n, s, t));
    }
  }

  ghost function AddLeader(h: History, n: nat, s: int, t: int): History
    requires (s, t) in h.cand
  {
    var l := h.cand[(s, t)];
    h.(lead := h.lead[t := LeaderRec(s, l, l, Supporters(h, n, s, t))], ack := h.ack[(s, t) := |l|])
  }

  lemma WinExtends(h: History, n: nat, s: int, node: Node, g: Shadow)
    requires HistoryOk(h, n) && NodeOk(h, n, s, node, g) && 0 <= s < n
    requires node.rf.role.Candidate? && Majority(n, Granters(h, n, s, node.rf.currentTerm) + {s})
    ensures var t := node.rf.currentTerm;
            && (s, t) in h.cand && g.full == h.cand[(s, t)] && t !in h.lead && (s, t) !in h.ack
            && Extends(h, AddLeader(h, n, s, t), s, t) && AcksValid(AddLeader(h, n, s, t), n)
            && NothingAfter(h, s, t)
  {
    hide Body, GoodLog, LeaderOk, CandidacyOk, VoteOk, CandidateRole, MatchOk, Supporters;
    ElectionSafety(h, n, s, node, g.full);
    WinnerKeptItsLog(h, n, s, node, g.full);
    NothingAfterNow(h, n, s, node.rf);
  }

  lemma WinHistory(h: History, n: nat, s: int, node: Node, g: Shadow)
    requires HistoryOk(h, n) && NodeOk(h, n, s, node, g) && 0 <= s < n
    requires node.rf.role.Candidate? && Majority(n, Granters(h, n, s, node.rf.currentTerm) + {s})
    requires (s, node.rf.currentTerm) in h.cand
    ensures HistoryOk(AddLeader(h, n, s, node.rf.currentTerm), n)
  {
    hide Body, GoodLog, CandidateRole, MatchOk, CandidacyOk, VoteOk, HistoryOk;
    var t := node.rf.currentTerm;
    var h2 := AddLeader(h, n, s, t);
    WinExtends(h, n, s, node, g);
    SupportersElect(h, n, s, t);
    NewLeaderOk(h, h2, n, s, node, g.full);
    HistoryFrame(h, h2, n, s, t);
  }

  lemma NewLeaderOk(h: History, h2: History, n: nat, s: int, node: Node, l: Log)
    requires HistoryOk(h, n) && |node.rf.matchIndex| == n && Standing(h, n, s, node, l) && 0 <= s < n
    requires var t := node.rf.currentTerm;
             && node.rf.role.Candidate? && (s, t) in h.cand && t !in h.lead
             && h2 == AddLeader(h, n, s, t) && Extends(h, h2, s, t) && AcksValid(h2, n) && l == h.cand[(s, t)]
             && Electable(h, n, t, l, Supporters(h, n, s, t))
    ensures LeaderOk(h2, n, node.rf.currentTerm)
  {
    hide GoodLog, Kept, CandidateRole, MatchOk, UpToDate;
    var t := node.rf.currentTerm;
    var voters := Supporters(h, n, s, t);
    assert CandidacyOk(h, n, s, t);
    assert (s, t) in h.votes ==> VoteOk(h, n, s, t);
    assert node.rf.votedFor == s by { CandidateVotesForItself(h, n, s, node, l); }
    GoodMono(h, h2, l, s, t);
    SortedBelow(h, l, t);
    NewVotersOk(h, h2, n, s, t, l);
    hide HistoryOk, CandidacyOk, VoteOk, Electable, Supporters, VoterOk, Standing;
  }

  lemma NewVotersOk(h: History, h2: History, n: nat, s: int, t: int, l: Log)
    requires HistoryOk(h, n) && (s, t) in h.cand && t !in h.lead && l == h.cand[(s, t)]
    requires h2 == AddLeader(h, n, s, t) && Extends(h, h2, s, t) && AcksValid(h2, n)
    requires Electable(h, n, t, l, Supporters(h, n, s, t))
    ensures forall v {:trigger VoterOk(h2, n, t, v)} :: v in Supporters(h, n, s, t) ==> VoterOk(h2, n, t, v)
  {
    hide GoodLog, Kept, UpToDate, LeaderOk, CandidacyOk, VoteOk;
    var voters := Supporters(h, n, s, t);
    forall v | v in voters
      ensures VoterOk(h2, n, t, v)
    {
      GoodMono(h, h2, voters[v], s, t);
      KeptMono(h, h2, n, v, voters[v], t - 1, t - 1, s, t);
    }
  }

  lemma CandidateVotesForItself(h: History, n: nat, s: int, node: Node, l: Log)
    requires CandidateRole(h, n, s, node, l) && node.rf.role.Candidate?
    ensures node.rf.votedFor == s
  {
  }

  lemma SortedBelow(h: History, l: Log, t: int)
    requires GoodLog(h, l) && TermOf(l, |l|) < t
    ensures OwnTail(t, l, l)
  {
  }

  /** Acknowledging the log it starts with: the new leader holds it. */
  lemma WinBody(h: History, h2: History, n: nat, s: int, node: Node, node2: Node, g: Shadow)
    requires AcksValid(h, n) && AcksValid(h2, n) && Body(h, n, s, node, g) && SameBody(node, node2)
    requires var t := node.rf.currentTerm;
             && node2.rf.currentTerm == t && (s, t) !in h.ack && t !in h.lead && (s, t) in h.cand
             && h2 == AddLeader(h, n, s, t) && Extends(h, h2, s, t) && g.full == h.cand[(s, t)]
    ensures Body(h2, n, s, node2, g)
  {
    hide GoodLog, CommittedPrefix, Kept, InstallOk, Extends, DeliveryOk, Supporters;
    var t := node.rf.currentTerm;
    GoodMono(h, h2, g.full, s, t);
    WinKept(h, h2, n, s, g.full, t);
    PrefixMono(h, h2, n, g.full[..g.high], t, t, s, t);
    SnapshotsFrame(h, h2, n, node, s, t);
    assert DeliveryOk(node2, g) by { DeliverySame(node, node2, g); }
  }

  lemma WinKept(h: History, h2: History, n: nat, s: int, l: Log, t: int)
    requires AcksValid(h, n) && AcksValid(h2, n) && Kept(h, n, s, l, t) && (s, t) !in h.ack && t !in h.lead
    requires (s, t) in h.cand && h2 == AddLeader(h, n, s, t) && Extends(h, h2, s, t) && l == h.cand[(s, t)]
    ensures Kept(h2, n, s, l, t)
  {
    forall u, i | (s, u) in h2.ack && u <= t && 0 <= i <= h2.ack[(s, u)]
      ensures Holds(h2, l, u, i, t)
    {
      if u != t {
        assert Holds(h, l, u, i, t);
        HoldsMono(h, h2, l, u, i, t, t, s, t);
      }
    }
  }

  lemma WinOk(h: History, n: nat, s: int, node: Node, g: Shadow) returns (h2: History)
    requires HistoryOk(h, n) && NodeOk(h, n, s, node, g) && 0 <= s < n
    requires node.rf.role.Candidate? && Majority(n, Granters(h, n, s, node.rf.currentTerm) + {s})
    ensures Extends(h, h2, s, node.rf.currentTerm) && HistoryOk(h2, n) && h2.said == h.said
    ensures NodeOk(h2, n, s, node.(rf := LeaderState(node.rf)), g)
  {
    hide Body, LeaderOk, CandidacyOk, VoteOk, Extends;
    var t := node.rf.currentTerm;
    WinExtends(h, n, s, node, g);
    WinHistory(h, n, s, node, g);
    h2 := AddLeader(h, n, s, t);
    var node2 := node.(rf := LeaderState(node.rf));
    BodyView(h, n, s, node, g);
    ViewEnds(node.rf, g);
    WinBody(h, h2, n, s, node, node2, g);
  }

  /** A vote counted once: the voter's request goroutine was still out. */
  lemma CountedVote(h: History, n: nat, s: int, node: Node, g: Shadow, from: int)
    requires HistoryOk(h, n) && NodeOk(h, n, s, node, g) && node.rf.role.Candidate? && from in node.awaiting
    requires (from, node.rf.currentTerm) in h.votes && h.votes[(from, node.rf.currentTerm)].candidate == s
    ensures var node2 := node.(rf := node.rf.(votesNum := node.rf.votesNum + 1), awaiting := node.awaiting - {from});
            && NodeOk(h, n, s, node2, g)
            && (node2.rf.votesNum > n / 2 ==> Majority(n, Granters(h, n, s, node.rf.currentTerm) + {s}))
  {
    hide Body, LeaderOk, CandidacyOk, VotingOk;
    var t := node.rf.currentTerm;
    var node2 := node.(rf := node.rf.(votesNum := node.rf.votesNum + 1), awaiting := node.awaiting - {from});
    SameHistory(h, s, t);
    BodyMono(h, h, n, s, node, node2, g, t);
    var votes := Granters(h, n, s, t);
    assert VoteOk(h, n, from, t);
    OneMore(votes, node.awaiting, from);
    assert VotingOk(h, s, node2.rf) by { VotingSame(h, s, node.rf, node2.rf); }
    assert s in votes ==> VoteOk(h, n, s, t);
  }

  lemma OneMore(votes: set<int>, awaiting: set<int>, from: int)
    requires from in votes && from in awaiting
    ensures |votes - (awaiting - {from})| == |votes - awaiting| + 1 <= |votes|
  {
    assert votes - (awaiting - {from}) == (votes - awaiting) + {from};
    SubsetSize(votes - (awaiting - {from}), votes);
  }

  lemma OnVoteAnswerOk(h: History, nodes: seq<Node>, s: int, g: Shadow, from: int, asked: int, r: VoteReply)
    returns (h2: History)
    requires HistoryOk(h, |nodes|) && 0 <= s < |nodes| && NodeOk(h, |nodes|, s, nodes[s], g)
    requires MessageOk(h, nodes, VoteAnswer(from, s, asked, r))
    requires asked == nodes[s].rf.currentTerm ==> from in nodes[s].awaiting
    ensures var node := nodes[s];
            var node2 := node.(rf := HandleVoteReply(node.rf, asked, r),
              awaiting := if asked == node.rf.currentTerm then node.awaiting - {from} else node.awaiting);
            && Extends(h, h2, s, node.rf.currentTerm) && HistoryOk(h2, |nodes|) && NodeOk(h2, |nodes|, s, node2, g)
            && h2.said == h.said
            && node.rf.currentTerm <= node2.rf.currentTerm
            && node2.rf.lastIncludedIndex == node.rf.lastIncludedIndex
  {
    hide Body, Standing, Extends, LeaderOk, CandidacyOk, VoteOk;
    var n, node := |nodes|, nodes[s];
    h2 := h;
    SameHistory(h, s, node.rf.currentTerm);
    if r.term > node.rf.currentTerm {
      FollowerOk(h, n, s, node, g, r.term);
      AwaitingShrinks(h, n, s, node.(rf := FollowerState(node.rf, r.term)), g, from);
    } else if node.rf.role.Candidate? && asked == node.rf.currentTerm && r.term == asked && r.granted {
      CountedVote(h, n, s, node, g, from);
      var node1 := node.(rf := node.rf.(votesNum := node.rf.votesNum + 1), awaiting := node.awaiting - {from});
      if node1.rf.votesNum > n / 2 {
        h2 := WinOk(h, n, s, node1, g);
      }
    } else {
      AwaitingShrinks(h, n, s, node, g, from);
    }
  }
}
