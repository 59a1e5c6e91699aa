/** What each handler may let out, and when it may leave a node a candidate. */
module Outputs {
  import opened Types
  import N = Node

  /** Neither a vote request, nor the opening of a read round, nor the result of Start. */
  predicate PlainOutput(o: Output) {
    !(o.Send? && o.request.RequestVote?) && !o.Opened? && !o.Started?
  }

  predicate Plain(out: seq<Output>) {
    forall o | o in out :: PlainOutput(o)
  }

  /** Most handlers: nothing but plain outputs, and a candidate afterwards was one before in the same term. */
  predicate Quiet(n: N.Node, r: N.Node) {
    && (Plain(n.out) ==> Plain(r.out))
    && (r.status == Candidate ==> n.status == Candidate && r.currentTerm == n.currentTerm)
  }

  predicate IsBallot(o: Output, t: int) {
    o.Send? && o.request.RequestVote? && o.request.vote.term == t
  }

  /** Some output asks peer p for its vote in term t. */
  predicate Asked(out: seq<Output>, p: Id, t: int) {
    exists j :: 0 <= j < |out| && IsBallot(out[j], t) && out[j].to == p
  }

  /** Plain but for vote requests of term t, no two of them to the same peer. */
  predicate Ballots(out: seq<Output>, t: int) {
    && (forall o | o in out :: PlainOutput(o) || IsBallot(o, t))
    && (forall j, k | 0 <= j < k < |out| && IsBallot(out[j], t) && IsBallot(out[k], t) :: out[j].to != out[k].to)
  }

  /** An election: a later term, one vote counted, every peer asked, and none asked twice. */
  predicate Elects(n: N.Node, r: N.Node) {
    && r.currentTerm > n.currentTerm && r.peers == n.peers
    && (forall p | p in n.peers :: Asked(r.out, p, r.currentTerm))
    && (r.status == Candidate ==> r.votesGranted == 1)
    && (Plain(n.out) ==> Ballots(r.out, r.currentTerm))
  }

  lemma BecomeFollowerQuiet(n: N.Node, t: int)
    ensures Quiet(n, N.BecomeFollower(n, t))
  {
  }

  lemma StepDownQuiet(n: N.Node)
    ensures Quiet(n, N.StepDown(n))
  {
  }

  lemma SeeTermQuiet(n: N.Node, t: int)
    ensures Quiet(n, N.SeeTerm(n, t))
  {
    BecomeFollowerQuiet(n, t);
  }

  lemma ScheduleQuiet(n: N.Node, p: Id)
    requires N.WellFormed(n) && p in n.peers
    ensures Quiet(n, N.ScheduleReplication(n, p))
  {
  }

  lemma {:induction false} ScheduleFirstQuiet(n: N.Node, k: nat)
    requires N.WellFormed(n) && k <= |n.peers|
    ensures Quiet(n, N.ScheduleFirst(n, k))
  {
    if k > 0 {
      ScheduleFirstQuiet(n, k - 1);
      ScheduleQuiet(N.ScheduleFirst(n, k - 1), n.peers[k - 1]);
    }
  }

  lemma ScheduleAllQuiet(n: N.Node)
    requires N.WellFormed(n)
    ensures Quiet(n, N.ScheduleAllReplication(n))
  {
    if n.status == Leader { ScheduleFirstQuiet(n, |n.peers|); }
  }

  lemma CommitAtQuiet(n: N.Node, m: int)
    requires N.WellFormed(n) && n.snapIndex <= m <= N.LastIndex(n)
    ensures Quiet(n, N.CommitAt(n, m))
  {
  }

  lemma UpdateCommitQuiet(n: N.Node)
    requires N.WellFormed(n)
    ensures Quiet(n, N.UpdateCommit(n))
  {
    var m := N.CommitScan(n, N.LastIndex(n));
    if m != n.commitIndex { CommitAtQuiet(N.Announce(n, m), m); }
  }

  lemma BecomeLeaderQuiet(n: N.Node, junk: int)
    requires N.WellFormed(n)
    ensures Quiet(n, N.BecomeLeader(n, junk))
  {
    hide N.ScheduleAllReplication;
    ScheduleAllQuiet(N.AppendEntry(N.TakeOffice(n), Noop(junk)));
  }

  lemma CanvassBallots(n: N.Node)
    requires N.WellFormed(n) && Plain(n.out)
    ensures Ballots(N.Canvass(n).out, n.currentTerm)
  {
    var out, t := N.Canvass(n).out, n.currentTerm;
    forall j | 0 <= j < |n.out| ensures !IsBallot(out[j], t) {
      assert n.out[j] in n.out;
    }
  }

  lemma CanvassAsks(n: N.Node, p: Id)
    requires N.WellFormed(n) && p in n.peers
    ensures Asked(N.Canvass(n).out, p, n.currentTerm)
  {
    var j :| 0 <= j < |n.peers| && n.peers[j] == p;
    var o := N.Canvass(n).out[|n.out| + j];
    assert IsBallot(o, n.currentTerm) && o.to == p;
  }

  lemma PlainBallots(out: seq<Output>, t: int)
    requires Plain(out)
    ensures Ballots(out, t)
  {
    assert forall j | 0 <= j < |out| :: out[j] in out && PlainOutput(out[j]);
  }

  lemma LoneQuorum(n: N.Node)
    requires N.Quorum(n) <= 1
    ensures n.peers == []
  {
  }

  lemma CampaignElects(n: N.Node)
    requires N.WellFormed(n)
    ensures Elects(n, N.Canvass(N.Campaign(n)))
  {
    var n1 := N.Campaign(n);
    if Plain(n1.out) { CanvassBallots(n1); }
    forall p | p in n.peers ensures Asked(N.Canvass(n1).out, p, n1.currentTerm) {
      CanvassAsks(n1, p);
    }
    hide Asked, Ballots;
  }

  /** A cluster of one elects itself at once and has nobody to ask. */
  lemma LoneElects(n: N.Node, junk: int)
    requires N.WellFormed(n) && N.Quorum(N.Canvass(N.Campaign(n))) <= 1
    ensures Elects(n, N.BecomeLeader(N.Canvass(N.Campaign(n)), junk))
  {
    hide N.BecomeLeader;
    var n2 := N.Canvass(N.Campaign(n));
    LoneQuorum(n2);
    assert n2.out == n.out;
    BecomeLeaderQuiet(n2, junk);
    LeaderTerm(n2, junk);
    if Plain(n.out) { PlainBallots(N.BecomeLeader(n2, junk).out, n2.currentTerm); }
  }

  lemma BeginElectionElects(n: N.Node, junk: int)
    requires N.WellFormed(n) && n.status != Leader
    ensures Elects(n, N.BeginElection(n, junk))
  {
    hide N.BecomeLeader, Elects;
    CampaignElects(n);
    if N.Quorum(N.Canvass(N.Campaign(n))) <= 1 { LoneElects(n, junk); }
  }

  lemma LeaderTerm(n: N.Node, junk: int)
    requires N.WellFormed(n)
    ensures var r := N.BecomeLeader(n, junk); r.currentTerm == n.currentTerm && r.status == Leader && r.peers == n.peers
  {
  }

  lemma BeginPreVoteElects(n: N.Node, junk: int)
    requires N.WellFormed(n)
    ensures Quiet(n, N.BeginPreVote(n, junk)) || Elects(n, N.BeginPreVote(n, junk))
  {
    if n.status != Leader {
      var n1 := N.Probe(n);
      if n1.preVotesGranted >= N.Quorum(n1) { BeginElectionElects(n1, junk); }
    }
  }

  lemma OnPreVoteReplyElects(n: N.Node, term: int, round: int, reply: Option<VoteReply>, junk: int)
    requires N.WellFormed(n)
    ensures var r := N.OnPreVoteReply(n, term, round, reply, junk); Quiet(n, r) || Elects(n, r)
  {
    hide N.BeginElection;
    if reply.Some? && reply.value.term > n.currentTerm {
      BecomeFollowerQuiet(n, reply.value.term);
    } else if n.status == PreCandidate {
      var n1 := n.(preVotesGranted := n.preVotesGranted + 1);
      if n1.preVotesGranted >= N.Quorum(n1) { BeginElectionElects(n1, junk); }
    }
  }

  lemma OnVoteReplyQuiet(n: N.Node, term: int, reply: Option<VoteReply>, junk: int)
    requires N.WellFormed(n)
    ensures Quiet(n, N.OnVoteReply(n, term, reply, junk))
  {
    hide N.BecomeLeader;
    if reply.Some? && reply.value.term > n.currentTerm {
      BecomeFollowerQuiet(n, reply.value.term);
    } else if n.status == Candidate {
      BecomeLeaderQuiet(n.(votesGranted := n.votesGranted + 1), junk);
    }
  }

  lemma TakeVoteQuiet(n: N.Node, a: VoteArgs)
    requires N.WellFormed(n)
    ensures Quiet(n, N.TakeVote(n, a).0)
  {
    SeeTermQuiet(n, a.term);
  }

  lemma CommitToQuiet(n: N.Node, leaderCommit: int)
    requires N.WellFormed(n)
    ensures Quiet(n, N.CommitTo(n, leaderCommit))
  {
    if leaderCommit > n.commitIndex { CommitAtQuiet(n, N.Min(N.LastIndex(n), leaderCommit)); }
  }

  lemma TakeAppendQuiet(n: N.Node, a: AppendArgs)
    requires N.WellFormed(n) && N.AppendOk(a)
    ensures Quiet(n, N.TakeAppend(n, a).0)
  {
    hide N.Merge, N.CommitTo;
    SeeTermQuiet(n, a.term);
    var n1 := N.SeeTerm(n, a.term).(status := Follower);
    if a.term >= n1.currentTerm && N.Matches(n1, a.prevIndex, a.prevTerm) {
      CommitToQuiet(N.StoreEntries(n1, a), a.leaderCommit);
    }
  }

  lemma TakeReadHeartBeatQuiet(n: N.Node, a: AppendArgs)
    requires N.WellFormed(n)
    ensures Quiet(n, N.TakeReadHeartBeat(n, a).0)
  {
    SeeTermQuiet(n, a.term);
  }

  lemma TakeSnapshotQuiet(n: N.Node, a: SnapshotArgs)
    requires N.WellFormed(n)
    ensures Quiet(n, N.TakeSnapshot(n, a).0)
  {
    SeeTermQuiet(n, a.term);
  }

  lemma HeartBeatQuiet(n: N.Node, p: Id, round: nat)
    requires N.WellFormed(n) && p in n.peers && N.HeartBeatSafe(n, p)
    ensures Quiet(n, N.ScheduleHeartBeat(n, p, round))
  {
  }

  lemma TryHeartBeatQuiet(n: N.Node, p: Id)
    requires N.WellFormed(n) && p in n.peers && N.HeartBeatSafe(n, p)
    ensures Quiet(n, N.TryReadHeartBeat(n, p))
  {
    if p in n.readPending { HeartBeatQuiet(n.(readPending := n.readPending[p := 0]), p, n.readPending[p]); }
  }

  lemma ContinueQuiet(n: N.Node, p: Id, retry: bool)
    requires N.WellFormed(n) && p in n.peers && n.status == Leader
    ensures Quiet(n, N.Continue(n, p, retry))
  {
    if retry || n.pending[p] || n.nextIndex[p] <= N.LastIndex(n) {
      ScheduleQuiet(n, p);
    } else {
      TryHeartBeatQuiet(n, p);
    }
  }

  lemma OnReadAckQuiet(n: N.Node, p: Id, number: nat)
    requires N.WellFormed(n) && p in n.peers && n.status == Leader
    ensures Quiet(n, N.OnReadAck(n, p, number))
  {
    if n.activeRead.Some? {
      var a := n.activeRead.value;
      var n1 := n.(activeRead := Some(a.(acks := a.acks + {p})));
      ContinueQuiet(n1, p, false);
      ContinueQuiet(N.CloseRead(n1, true), p, false);
    }
  }

  lemma OnMatchQuiet(n: N.Node, p: Id, index: int)
    requires N.WellFormed(n) && p in n.peers && n.status == Leader && index <= N.LastIndex(n)
    ensures Quiet(n, N.OnMatch(n, p, index))
  {
    UpdateCommitQuiet(N.Credit(n, p, index));
    ContinueQuiet(N.UpdateCommit(N.Credit(n, p, index)), p, false);
  }

  lemma OnAppendAnswerQuiet(n: N.Node, p: Id, request: AppendArgs, a: AppendReply)
    requires N.WellFormed(n) && p in n.peers && n.status == Leader
    requires request.prevIndex + |request.entries| <= N.LastIndex(n)
    ensures Quiet(n, N.OnAppendAnswer(n, p, request, a))
  {
    hide N.Continue, N.TryNext, N.OnMatch, N.OnReadAck;
    if a.success && a.readRound.Some? && a.readRound.value > 0 {
      OnReadAckQuiet(n, p, a.readRound.value);
    } else if a.success {
      OnMatchQuiet(n, p, request.prevIndex + |request.entries|);
    } else {
      ContinueQuiet(N.TryNext(n, p, a.updateNextIndex), p, true);
    }
  }

  lemma OnAppendReplyQuiet(n: N.Node, p: Id, request: AppendArgs, reply: Option<AppendReply>)
    requires N.WellFormed(n) && p in n.peers && N.OwnRequest(n, request)
    ensures Quiet(n, N.OnAppendReply(n, p, request, reply))
  {
    hide N.OnAppendAnswer, N.BecomeFollower;
    if n.status == Leader && request.term == n.currentTerm && reply.Some? {
      var n1 := N.Idle(n, p);
      BecomeFollowerQuiet(n1, reply.value.term);
      OnAppendAnswerQuiet(n1, p, request, reply.value);
    }
  }

  lemma OnSnapshotReplyQuiet(n: N.Node, p: Id, term: int, reply: Option<SnapshotReply>)
    requires N.WellFormed(n) && p in n.peers
    ensures Quiet(n, N.OnSnapshotReply(n, p, term, reply))
  {
    hide N.ScheduleReplication, N.BecomeFollower;
    if n.status == Leader && term == n.currentTerm && reply.Some? {
      var n1 := N.Idle(n, p);
      BecomeFollowerQuiet(n1, reply.value.term);
      ScheduleQuiet(N.Credit(n1, p, n1.snapIndex), p);
    }
  }

  /** Plain outputs and then, from a leader, the result for the entry after its last. */
  lemma StartOut(n: N.Node, op: Op)
    requires N.WellFormed(n)
    ensures var r := N.Start(n, op);
            && (n.status != Leader ==> r == n)
            && (n.status == Leader && Plain(n.out) ==>
                  exists out :: Plain(out) && r.out == out + [Started(Entry(n.currentTerm, N.LastIndex(n) + 1, op))])
            && (r.status == Candidate ==> n.status == Candidate && r.currentTerm == n.currentTerm)
  {
    hide N.UpdateCommit, N.ScheduleAllReplication;
    if n.status == Leader {
      var n1 := N.AppendEntry(n, op);
      UpdateCommitQuiet(n1);
      ScheduleAllQuiet(N.UpdateCommit(n1));
      assert Plain(n.out) ==> Plain(N.ScheduleAllReplication(N.UpdateCommit(n1)).out);
    }
  }

  lemma HeartBeatOut(n: N.Node, p: Id, round: nat)
    requires N.WellFormed(n) && p in n.peers && N.HeartBeatSafe(n, p)
    ensures var out := N.ScheduleHeartBeat(n, p, round).out;
            out == n.out || (|out| == |n.out| + 1 && n.out <= out && out[|n.out|].Send?
                             && out[|n.out|].request.AppendEntries?)
  {
  }

  lemma {:induction false} HeartBeatFirstOut(n: N.Node, round: nat, k: nat)
    requires N.WellFormed(n) && k <= |n.peers| && forall p | p in n.peers :: N.HeartBeatSafe(n, p)
    ensures var out := N.HeartBeatFirst(n, round, k).out;
            n.out <= out && forall j | |n.out| <= j < |out| :: out[j].Send? && out[j].request.AppendEntries?
  {
    if k > 0 {
      HeartBeatFirstOut(n, round, k - 1);
      HeartBeatOut(N.HeartBeatFirst(n, round, k - 1), n.peers[k - 1], round);
      hide N.ScheduleHeartBeat;
    }
  }

  /** A read that opens a round says so before anything else it lets out. */
  lemma ReadIndexOut(n: N.Node, round: nat, callback: nat)
    requires N.WellFormed(n) && n.readIndexRound < round && N.ReadSafe(n) && n.out == []
    ensures var r := N.ReadIndex(n, round, callback);
            && (N.OpensRound(n) ==> |r.out| > 0 && r.out[0] == Opened(n.currentTerm, round, n.commitIndex))
            && (forall j | (if N.OpensRound(n) then 1 else 0) <= j < |r.out| ::
                  PlainOutput(r.out[j]) && !(r.out[j].Answer? && r.out[j].ok))
            && (r.status == Candidate ==> n.status == Candidate && r.currentTerm == n.currentTerm)
  {
    if N.OpensRound(n) {
      HeartBeatFirstOut(N.OpenRound(n, round, callback), round, |n.peers|);
    }
  }
}
