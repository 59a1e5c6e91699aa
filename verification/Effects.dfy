/**
 * What a handler does to the outside: which apply messages it pushes, which read callbacks it answers and which
 * snapshots it sends.  Each handler is covered, so nothing that is due can be left out.
 */
module Effects {
  import opened Types
  import N = Node

  // ---------------------------------------------------------------- outputs

  /** The apply messages among outputs, in order. */
  function Pushed(out: seq<Output>): seq<ApplyMsg> {
    if out == [] then []
    else Pushed(out[..|out| - 1]) + if out[|out| - 1].Apply? then [out[|out| - 1].msg] else []
  }

  /** The answers to read callbacks among outputs, in order. */
  function ReadAnswers(out: seq<Output>): seq<Output> {
    if out == [] then []
    else ReadAnswers(out[..|out| - 1]) + if out[|out| - 1].Answer? then [out[|out| - 1]] else []
  }

  lemma {:induction false} PartsOf(a: seq<Output>, b: seq<Output>)
    ensures Pushed(a + b) == Pushed(a) + Pushed(b) && ReadAnswers(a + b) == ReadAnswers(a) + ReadAnswers(b)
  {
    if b == [] {
      assert a + b == a;
    } else {
      var rest := b[..|b| - 1];
      PartsOf(a, rest);
      assert (a + b)[..|a + b| - 1] == a + rest;
    }
  }

  /** Outputs that neither push nor answer. */
  predicate Silent(out: seq<Output>) {
    forall o | o in out :: !o.Apply? && !o.Answer?
  }

  lemma {:induction false} SilentIs(out: seq<Output>)
    requires Silent(out)
    ensures Pushed(out) == [] && ReadAnswers(out) == []
  {
    if out != [] {
      assert out[|out| - 1] in out;
      SilentIs(out[..|out| - 1]);
    }
  }

  lemma SilentAdds(a: seq<Output>, b: seq<Output>)
    requires Silent(b)
    ensures Pushed(a + b) == Pushed(a) && ReadAnswers(a + b) == ReadAnswers(a)
  {
    PartsOf(a, b);
    SilentIs(b);
  }

  predicate IsSnapshot(o: Output) {
    o.Send? && o.request.InstallSnapshot?
  }

  /** o carries n's own snapshot. */
  predicate Carries(o: Output, n: N.Node)
    requires IsSnapshot(o)
  {
    1 <= n.snapIndex == o.request.snapshot.lastIndex && o.request.snapshot.data == n.disk.snapshot
  }

  /** Every snapshot that r has sent since n is n's own. */
  predicate SendsOwn(n: N.Node, r: N.Node) {
    forall o | o in r.out && IsSnapshot(o) :: o in n.out || Carries(o, n)
  }

  // ---------------------------------------------------------------- relations between a node before and after

  predicate SameSnapshot(n: N.Node, r: N.Node) {
    r.snapIndex == n.snapIndex && r.disk.snapshot == n.disk.snapshot
  }

  predicate SameApplied(n: N.Node, r: N.Node) {
    r.applyQueue == n.applyQueue && r.lastApplied == n.lastApplied && Pushed(r.out) == Pushed(n.out)
  }

  /** The open round and the answers given are as they were. */
  predicate SameRead(n: N.Node, r: N.Node) {
    r.activeRead == n.activeRead && ReadAnswers(r.out) == ReadAnswers(n.out)
  }

  predicate Onward(n: N.Node, r: N.Node) {
    r.id == n.id && r.peers == n.peers && n.currentTerm <= r.currentTerm && SameSnapshot(n, r) && SendsOwn(n, r)
  }

  /** Nothing pushed and nothing answered. */
  predicate Still(n: N.Node, r: N.Node) {
    Onward(n, r) && SameApplied(n, r) && SameRead(n, r)
  }

  /** These are the commands from index a + 1 to c, one after the other. */
  predicate Covers(msgs: seq<ApplyMsg>, a: int, c: int) {
    |msgs| == c - a && forall x | 0 <= x < |msgs| :: msgs[x].CommandMsg? && msgs[x].index == a + 1 + x
  }

  /** What was pushed went to the queue as well, and it is every command that became applied. */
  predicate Feeds(n: N.Node, r: N.Node) {
    && n.applyQueue <= r.applyQueue && n.lastApplied <= r.lastApplied
    && Pushed(r.out) == Pushed(n.out) + r.applyQueue[|n.applyQueue|..]
    && Covers(r.applyQueue[|n.applyQueue|..], n.lastApplied, r.lastApplied)
  }

  /** One answer for every callback of the round, in order. */
  predicate AnswersAll(answers: seq<Output>, a: N.ReadRound, ok: bool) {
    |answers| == |a.callbacks|
    && forall j | 0 <= j < |answers| :: answers[j] == Answer(a.callbacks[j], ok, a.number, a.readIndex)
  }

  /** The open round of n, if there is one, was closed with this result. */
  predicate Closes(n: N.Node, r: N.Node, ok: bool) {
    && r.activeRead == None
    && if n.activeRead.None? then ReadAnswers(r.out) == ReadAnswers(n.out)
       else ReadAnswers(n.out) <= ReadAnswers(r.out)
            && AnswersAll(ReadAnswers(r.out)[|ReadAnswers(n.out)|..], n.activeRead.value, ok)
  }

  /** An open round stays open, or a later term has come and every callback is told so. */
  predicate ReadStays(n: N.Node, r: N.Node) {
    SameRead(n, r) || (r.currentTerm > n.currentTerm && Closes(n, r, false))
  }

  /** All handlers but those that compact, install, open or confirm a read, step down or restart. */
  predicate Ordinary(n: N.Node, r: N.Node) {
    Onward(n, r) && Feeds(n, r) && ReadStays(n, r)
  }

  lemma StillIsOrdinary(n: N.Node, r: N.Node)
    requires Still(n, r)
    ensures Ordinary(n, r)
  {
  }

  lemma StillTrans(n: N.Node, m: N.Node, r: N.Node)
    requires Still(n, m) && Still(m, r)
    ensures Still(n, r)
  {
  }

  lemma FeedsTrans(n: N.Node, m: N.Node, r: N.Node)
    requires Feeds(n, m) && Feeds(m, r)
    ensures Feeds(n, r)
  {
    var a, b := m.applyQueue[|n.applyQueue|..], r.applyQueue[|m.applyQueue|..];
    assert r.applyQueue[|n.applyQueue|..] == a + b;
  }

  lemma ReadStaysTrans(n: N.Node, m: N.Node, r: N.Node)
    requires ReadStays(n, m) && ReadStays(m, r) && n.currentTerm <= m.currentTerm <= r.currentTerm
    ensures ReadStays(n, r)
  {
  }

  lemma OrdinaryTrans(n: N.Node, m: N.Node, r: N.Node)
    requires Ordinary(n, m) && Ordinary(m, r)
    ensures Ordinary(n, r)
  {
    FeedsTrans(n, m, r);
    ReadStaysTrans(n, m, r);
    hide Feeds, ReadStays;
  }

  lemma ThenStill(n: N.Node, m: N.Node, r: N.Node)
    requires Ordinary(n, m) && Still(m, r)
    ensures Ordinary(n, r)
  {
    StillIsOrdinary(m, r);
    OrdinaryTrans(n, m, r);
  }

  lemma StillThen(n: N.Node, m: N.Node, r: N.Node)
    requires Still(n, m) && Ordinary(m, r)
    ensures Ordinary(n, r)
  {
    StillIsOrdinary(n, m);
    OrdinaryTrans(n, m, r);
  }

  /** Outputs added that are silent and send no snapshot but n's own; nothing else of what counts here is touched. */
  lemma AddsSilently(n: N.Node, r: N.Node, more: seq<Output>)
    requires r.out == n.out + more && Silent(more) && forall o | o in more && IsSnapshot(o) :: Carries(o, n)
    requires r.id == n.id && r.peers == n.peers && n.currentTerm <= r.currentTerm && SameSnapshot(n, r)
    requires r.applyQueue == n.applyQueue && r.lastApplied == n.lastApplied && r.activeRead == n.activeRead
    ensures Still(n, r)
  {
    SilentAdds(n.out, more);
  }

  lemma SameFields(n: N.Node, r: N.Node)
    requires r.out == n.out && r.id == n.id && r.peers == n.peers && n.currentTerm <= r.currentTerm
    requires SameSnapshot(n, r)
    requires r.applyQueue == n.applyQueue && r.lastApplied == n.lastApplied && r.activeRead == n.activeRead
    ensures Still(n, r)
  {
  }

  // ---------------------------------------------------------------- replication

  lemma ScheduleStill(n: N.Node, p: Id)
    requires N.WellFormed(n) && p in n.peers
    ensures Still(n, N.ScheduleReplication(n, p))
  {
    var r := N.ScheduleReplication(n, p);
    if r.out == n.out {
      SameFields(n, r);
    } else {
      AddsSilently(n, r, [Send(p, N.RequestFor(n, p))]);
    }
  }

  lemma {:induction false} ScheduleFirstStill(n: N.Node, k: nat)
    requires N.WellFormed(n) && k <= |n.peers|
    ensures Still(n, N.ScheduleFirst(n, k))
  {
    if k > 0 {
      ScheduleFirstStill(n, k - 1);
      ScheduleStill(N.ScheduleFirst(n, k - 1), n.peers[k - 1]);
      StillTrans(n, N.ScheduleFirst(n, k - 1), N.ScheduleFirst(n, k));
    }
  }

  lemma ScheduleAllStill(n: N.Node)
    requires N.WellFormed(n)
    ensures Still(n, N.ScheduleAllReplication(n))
  {
    if n.status == Leader { ScheduleFirstStill(n, |n.peers|); }
  }

  lemma HeartBeatStill(n: N.Node, p: Id, round: nat)
    requires N.WellFormed(n) && p in n.peers && N.HeartBeatSafe(n, p)
    ensures Still(n, N.ScheduleHeartBeat(n, p, round))
  {
    var r := N.ScheduleHeartBeat(n, p, round);
    if r.out == n.out {
      SameFields(n, r);
    } else {
      AddsSilently(n, r, [Send(p, AppendEntries(N.BuildReadHeartBeat(n, p, round)))]);
    }
  }

  lemma TryHeartBeatStill(n: N.Node, p: Id)
    requires N.WellFormed(n) && p in n.peers && N.HeartBeatSafe(n, p)
    ensures Still(n, N.TryReadHeartBeat(n, p))
  {
    if p in n.readPending {
      var m := n.(readPending := n.readPending[p := 0]);
      SameFields(n, m);
      HeartBeatStill(m, p, n.readPending[p]);
      StillTrans(n, m, N.ScheduleHeartBeat(m, p, n.readPending[p]));
    }
  }

  lemma ContinueStill(n: N.Node, p: Id, retry: bool)
    requires N.WellFormed(n) && p in n.peers && n.status == Leader
    ensures Still(n, N.Continue(n, p, retry))
  {
    if retry || n.pending[p] || n.nextIndex[p] <= N.LastIndex(n) {
      ScheduleStill(n, p);
    } else {
      TryHeartBeatStill(n, p);
    }
  }

  lemma {:induction false} HeartBeatFirstStill(n: N.Node, round: nat, k: nat)
    requires N.WellFormed(n) && k <= |n.peers| && forall p | p in n.peers :: N.HeartBeatSafe(n, p)
    ensures Still(n, N.HeartBeatFirst(n, round, k))
  {
    if k > 0 {
      HeartBeatFirstStill(n, round, k - 1);
      var m := N.HeartBeatFirst(n, round, k - 1);
      HeartBeatStill(m, n.peers[k - 1], round);
      StillTrans(n, m, N.HeartBeatFirst(n, round, k));
    }
  }

  // ---------------------------------------------------------------- committing

  lemma {:induction false} AppliesPush(msgs: seq<ApplyMsg>)
    ensures Pushed(N.Applies(msgs)) == msgs && ReadAnswers(N.Applies(msgs)) == []
  {
    if msgs != [] {
      var rest := msgs[..|msgs| - 1];
      AppliesPush(rest);
      assert N.Applies(msgs)[..|N.Applies(msgs)| - 1] == N.Applies(rest);
      assert msgs == rest + [msgs[|msgs| - 1]];
    }
  }

  lemma CommandsCover(logs: seq<Entry>, snap: int, a: int, c: int)
    requires N.Contiguous(logs, snap) && snap <= a <= c <= snap + |logs|
    ensures Covers(N.CommandsOf(logs[a - snap..c - snap]), a, c)
  {
    var part := logs[a - snap..c - snap];
    assert forall x | 0 <= x < |part| :: part[x] == logs[a - snap + x];
  }

  lemma PushesFeed(n: N.Node, r: N.Node, msgs: seq<ApplyMsg>)
    requires Covers(msgs, n.lastApplied, r.lastApplied)
    requires r.out == n.out + N.Applies(msgs) && r.applyQueue == n.applyQueue + msgs
    requires r.id == n.id && r.peers == n.peers && n.currentTerm <= r.currentTerm && SameSnapshot(n, r)
    requires r.activeRead == n.activeRead
    ensures Ordinary(n, r)
  {
    AppliesPush(msgs);
    PartsOf(n.out, N.Applies(msgs));
    assert r.applyQueue[|n.applyQueue|..] == msgs;
    assert forall o | o in N.Applies(msgs) :: o.Apply?;
  }

  /** Moving the commit index pushes every command up to it that was not applied before. */
  lemma CommitAtFeeds(n: N.Node, m: int)
    requires N.WellFormed(n) && n.snapIndex <= m <= N.LastIndex(n)
    ensures Ordinary(n, N.CommitAt(n, m)) && N.CommitAt(n, m).lastApplied == N.Max(n.lastApplied, m)
  {
    N.LastIndexIs(n);
    var r := N.CommitAt(n, m);
    if m <= n.lastApplied {
      SameFields(n, r);
      StillIsOrdinary(n, r);
    } else {
      CommandsCover(n.logs, n.snapIndex, n.lastApplied, m);
      hide Covers, Ordinary, N.WellFormed;
      PushesFeed(n, r, N.CommandsOf(n.logs[n.lastApplied - n.snapIndex..m - n.snapIndex]));
    }
  }

  lemma UpdateCommitFeeds(n: N.Node)
    requires N.WellFormed(n)
    ensures Ordinary(n, N.UpdateCommit(n))
  {
    var m := N.CommitScan(n, N.LastIndex(n));
    if m == n.commitIndex {
      SameFields(n, n);
      StillIsOrdinary(n, n);
    } else {
      var n1 := N.Announce(n, m);
      AddsSilently(n, n1, [Committed(n.logs[m - n.snapIndex - 1])]);
      CommitAtFeeds(n1, m);
      hide N.CommitAt;
      StillThen(n, n1, N.CommitAt(n1, m));
    }
  }

  lemma CommitToFeeds(n: N.Node, leaderCommit: int)
    requires N.WellFormed(n)
    ensures Ordinary(n, N.CommitTo(n, leaderCommit))
  {
    if leaderCommit > n.commitIndex {
      CommitAtFeeds(n, N.Min(N.LastIndex(n), leaderCommit));
    } else {
      SameFields(n, n);
      StillIsOrdinary(n, n);
    }
  }

  // ---------------------------------------------------------------- reads

  lemma {:induction false} OnlyAnswers(out: seq<Output>)
    requires forall o | o in out :: o.Answer?
    ensures Pushed(out) == [] && ReadAnswers(out) == out
  {
    if out != [] {
      assert out[|out| - 1] in out && out == out[..|out| - 1] + [out[|out| - 1]];
      OnlyAnswers(out[..|out| - 1]);
    }
  }

  /** Closing a round answers every callback with the result, in order, and nothing else. */
  lemma CloseReadCloses(n: N.Node, ok: bool)
    ensures var r := N.CloseRead(n, ok);
            Closes(n, r, ok) && SameApplied(n, r) && Onward(n, r)
  {
    var r := N.CloseRead(n, ok);
    if n.activeRead.None? {
      assert r.out == n.out + [];
      assert n.out + [] == n.out;
    } else {
      var a := n.activeRead.value;
      var more := N.Answers(a, ok);
      OnlyAnswers(more);
      PartsOf(n.out, more);
      assert ReadAnswers(r.out)[|ReadAnswers(n.out)|..] == more;
    }
  }

  /** A later term closes the open round. */
  lemma BecomeFollowerOrdinary(n: N.Node, t: int)
    requires n.currentTerm < t
    ensures Ordinary(n, N.BecomeFollower(n, t))
  {
    var m := N.Persist(n.(currentTerm := t, votedFor := NO_VOTE))
              .(status := Follower, votesGranted := 0, preVotesGranted := 0, currentTermCommitted := false);
    CloseReadCloses(m, false);
    assert N.BecomeFollower(n, t) == N.CloseRead(m, false);
    hide N.CloseRead;
  }

  lemma SeeTermOrdinary(n: N.Node, t: int)
    ensures Ordinary(n, N.SeeTerm(n, t))
  {
    if t > n.currentTerm {
      BecomeFollowerOrdinary(n, t);
    } else {
      SameFields(n, n);
      StillIsOrdinary(n, n);
    }
  }

  // ---------------------------------------------------------------- elections

  lemma ToPeersSilent(n: N.Node, request: Request)
    requires !request.InstallSnapshot?
    ensures Silent(N.ToPeers(n, request)) && forall o | o in N.ToPeers(n, request) :: !IsSnapshot(o)
  {
  }

  lemma AppendEntryStill(n: N.Node, op: Op)
    requires N.WellFormed(n)
    ensures Still(n, N.AppendEntry(n, op))
  {
    SameFields(n, N.AppendEntry(n, op));
  }

  lemma BecomeLeaderStill(n: N.Node, junk: int)
    requires N.WellFormed(n)
    ensures Still(n, N.BecomeLeader(n, junk))
  {
    var m := N.TakeOffice(n);
    AddsSilently(n, m, [Elected(n.currentTerm)]);
    AppendEntryStill(m, Noop(junk));
    ScheduleAllStill(N.AppendEntry(m, Noop(junk)));
    hide N.TakeOffice, N.AppendEntry, N.ScheduleAllReplication;
    StillTrans(n, m, N.AppendEntry(m, Noop(junk)));
    StillTrans(n, N.AppendEntry(m, Noop(junk)), N.BecomeLeader(n, junk));
  }

  lemma BeginElectionStill(n: N.Node, junk: int)
    requires N.WellFormed(n)
    ensures Still(n, N.BeginElection(n, junk))
  {
    if n.status != Leader {
      var m := N.Campaign(n);
      SameFields(n, m);
      var request := RequestVote(N.VoteRequestOf(m));
      ToPeersSilent(m, request);
      var c := N.Canvass(m);
      AddsSilently(m, c, N.ToPeers(m, request));
      StillTrans(n, m, c);
      BecomeLeaderStill(c, junk);
      hide N.BecomeLeader, N.Campaign, N.Canvass;
      StillTrans(n, c, N.BecomeLeader(c, junk));
    }
  }

  lemma BeginPreVoteStill(n: N.Node, junk: int)
    requires N.WellFormed(n)
    ensures Still(n, N.BeginPreVote(n, junk))
  {
    if n.status != Leader {
      var request := PreVote(N.VoteRequestOf(n).(term := n.currentTerm + 1), n.preVoteRound + 1);
      ToPeersSilent(n, request);
      var m := N.Probe(n);
      AddsSilently(n, m, N.ToPeers(n, request));
      BeginElectionStill(m, junk);
      hide N.BeginElection, N.Probe;
      StillTrans(n, m, N.BeginElection(m, junk));
    }
  }

  lemma OnPreVoteReplyOrdinary(n: N.Node, term: int, round: int, reply: Option<VoteReply>, junk: int)
    requires N.WellFormed(n)
    ensures Ordinary(n, N.OnPreVoteReply(n, term, round, reply, junk))
  {
    SameFields(n, n);
    var m := n.(preVotesGranted := n.preVotesGranted + 1);
    SameFields(n, m);
    BeginElectionStill(m, junk);
    StillTrans(n, m, N.BeginElection(m, junk));
    if reply.Some? && reply.value.term > n.currentTerm { BecomeFollowerOrdinary(n, reply.value.term); }
    hide N.BeginElection, N.BecomeFollower, Still, Ordinary;
    StillIsOrdinary(n, n);
    StillIsOrdinary(n, m);
    StillIsOrdinary(n, N.BeginElection(m, junk));
  }

  lemma OnVoteReplyOrdinary(n: N.Node, term: int, reply: Option<VoteReply>, junk: int)
    requires N.WellFormed(n)
    ensures Ordinary(n, N.OnVoteReply(n, term, reply, junk))
  {
    hide N.BecomeLeader, N.BecomeFollower;
    SameFields(n, n);
    var m := n.(votesGranted := n.votesGranted + 1);
    SameFields(n, m);
    BecomeLeaderStill(m, junk);
    StillTrans(n, m, N.BecomeLeader(m, junk));
    if reply.Some? && reply.value.term > n.currentTerm { BecomeFollowerOrdinary(n, reply.value.term); }
    hide N.BecomeLeader, N.BecomeFollower, Still, Ordinary;
    StillIsOrdinary(n, n);
    StillIsOrdinary(n, m);
    StillIsOrdinary(n, N.BecomeLeader(m, junk));
  }

  // ---------------------------------------------------------------- requests

  lemma TakeVoteOrdinary(n: N.Node, a: VoteArgs)
    requires N.WellFormed(n)
    ensures Ordinary(n, N.TakeVote(n, a).0)
  {
    var m := N.SeeTerm(n, a.term);
    SeeTermOrdinary(n, a.term);
    var v := N.Persist(m.(votedFor := a.candidate));
    SameFields(m, m);
    SameFields(m, v);
    hide N.SeeTerm, Ordinary, Still, N.WellFormed, N.Persist, N.WhetherVoteFor;
    ThenStill(n, m, m);
    ThenStill(n, m, v);
  }

  lemma StoreEntriesStill(n: N.Node, a: AppendArgs)
    requires N.WellFormed(n) && n.status != Leader && N.AppendOk(a) && n.snapIndex <= a.prevIndex <= N.LastIndex(n)
    ensures Still(n, N.StoreEntries(n, a))
  {
    hide N.Merge;
    SameFields(n, N.StoreEntries(n, a));
  }

  lemma FollowAppendOrdinary(n: N.Node, a: AppendArgs)
    requires N.WellFormed(n) && N.AppendOk(a) && n.status == Follower
    ensures Ordinary(n, N.FollowAppend(n, a).0)
  {
    if N.Matches(n, a.prevIndex, a.prevTerm) {
      StoreEntriesStill(n, a);
      var m := N.StoreEntries(n, a);
      CommitToFeeds(m, a.leaderCommit);
      hide N.StoreEntries, N.CommitTo;
      StillThen(n, m, N.CommitTo(m, a.leaderCommit));
    } else {
      SameFields(n, n);
      StillIsOrdinary(n, n);
    }
  }

  lemma TakeAppendOrdinary(n: N.Node, a: AppendArgs)
    requires N.WellFormed(n) && N.AppendOk(a)
    ensures Ordinary(n, N.TakeAppend(n, a).0)
  {
    var m := N.SeeTerm(n, a.term);
    SeeTermOrdinary(n, a.term);
    if a.term >= m.currentTerm {
      var f := m.(status := Follower);
      SameFields(m, f);
      ThenStill(n, m, f);
      FollowAppendOrdinary(f, a);
      hide N.SeeTerm, N.FollowAppend;
      OrdinaryTrans(n, f, N.FollowAppend(f, a).0);
    }
  }

  lemma TakeReadHeartBeatOrdinary(n: N.Node, a: AppendArgs)
    requires N.WellFormed(n)
    ensures Ordinary(n, N.TakeReadHeartBeat(n, a).0)
  {
    var m, r := N.SeeTerm(n, a.term), N.TakeReadHeartBeat(n, a).0;
    SeeTermOrdinary(n, a.term);
    hide N.SeeTerm;
    SameFields(m, r);
    ThenStill(n, m, r);
  }

  // ---------------------------------------------------------------- answers

  lemma CreditStill(n: N.Node, p: Id, index: int)
    requires N.WellFormed(n) && p in n.peers && n.status == Leader && index <= N.LastIndex(n)
    ensures Still(n, N.Credit(n, p, index))
  {
    SameFields(n, N.Credit(n, p, index));
  }

  lemma OnMatchOrdinary(n: N.Node, p: Id, index: int)
    requires N.WellFormed(n) && p in n.peers && n.status == Leader && index <= N.LastIndex(n)
    ensures Ordinary(n, N.OnMatch(n, p, index))
  {
    var m := N.Credit(n, p, index);
    CreditStill(n, p, index);
    UpdateCommitFeeds(m);
    var u := N.UpdateCommit(m);
    ContinueStill(u, p, false);
    hide N.Credit, N.UpdateCommit, N.Continue;
    StillThen(n, m, u);
    ThenStill(n, u, N.Continue(u, p, false));
  }

  lemma RetryStill(n: N.Node, p: Id, suggestion: int)
    requires N.WellFormed(n) && p in n.peers && n.status == Leader
    ensures Still(n, N.Retry(n, p, suggestion))
  {
    var m := N.TryNext(n, p, suggestion);
    SameFields(n, m);
    ContinueStill(m, p, true);
    hide N.TryNext, N.Continue;
    StillTrans(n, m, N.Continue(m, p, true));
  }

  lemma IdleStill(n: N.Node, p: Id)
    requires N.WellFormed(n) && p in n.peers
    ensures Still(n, N.Idle(n, p))
  {
    SameFields(n, N.Idle(n, p));
  }

  lemma OnSnapshotAnswerStill(n: N.Node, p: Id)
    requires N.WellFormed(n) && p in n.peers && n.status == Leader
    ensures Still(n, N.OnSnapshotAnswer(n, p))
  {
    var m := N.Credit(n, p, n.snapIndex);
    CreditStill(n, p, n.snapIndex);
    ScheduleStill(m, p);
    hide N.Credit, N.ScheduleReplication;
    StillTrans(n, m, N.ScheduleReplication(m, p));
  }

  lemma OnSnapshotReplyOrdinary(n: N.Node, p: Id, term: int, reply: Option<SnapshotReply>)
    requires N.WellFormed(n) && p in n.peers
    ensures Ordinary(n, N.OnSnapshotReply(n, p, term, reply))
  {
    SameFields(n, n);
    StillIsOrdinary(n, n);
    if n.status == Leader && term == n.currentTerm {
      var m := N.Idle(n, p);
      IdleStill(n, p);
      StillIsOrdinary(n, m);
      if reply.Some? {
        if reply.value.term > n.currentTerm {
          BecomeFollowerOrdinary(m, reply.value.term);
          StillThen(n, m, N.BecomeFollower(m, reply.value.term));
        }
        OnSnapshotAnswerStill(m, p);
        StillTrans(n, m, N.OnSnapshotAnswer(m, p));
        StillIsOrdinary(n, N.OnSnapshotAnswer(m, p));
      }
    }
    hide N.OnSnapshotAnswer, N.BecomeFollower, Ordinary, Still, N.Idle;
  }

  // ---------------------------------------------------------------- read rounds

  /** p is the peer that completes a majority of the cluster for the open round of n. */
  predicate Completes(n: N.Node, p: Id) {
    n.activeRead.Some? && 2 * |n.activeRead.value.acks + {p}| > |n.peers| + 1
  }

  /** What the answer of p to the open round of its own number and term does. */
  predicate Confirms(n: N.Node, p: Id, r: N.Node) {
    && n.activeRead.Some? && Onward(n, r) && SameApplied(n, r) && r.currentTerm == n.currentTerm
    && if Completes(n, p) then Closes(n, r, true)
       else ReadAnswers(r.out) == ReadAnswers(n.out)
            && r.activeRead == Some(n.activeRead.value.(acks := n.activeRead.value.acks + {p}))
  }

  /** Is number the round that n has open in this term? */
  predicate Awaits(n: N.Node, number: nat) {
    n.activeRead.Some? && n.activeRead.value.term == n.currentTerm && n.activeRead.value.number == number
  }

  lemma ContinueTerm(n: N.Node, p: Id)
    requires N.WellFormed(n) && p in n.peers && n.status == Leader
    ensures N.Continue(n, p, false).currentTerm == n.currentTerm
  {
  }

  lemma ThenSends(n: N.Node, p: Id, m: N.Node, r: N.Node)
    requires Confirms(n, p, m) && Still(m, r) && r.currentTerm == m.currentTerm
    ensures Confirms(n, p, r)
  {
  }

  lemma AckRecorded(n: N.Node, p: Id)
    requires N.WellFormed(n) && n.activeRead.Some?
    ensures var m := n.(activeRead := Some(n.activeRead.value.(acks := n.activeRead.value.acks + {p})));
            Confirms(n, p, if Completes(n, p) then N.CloseRead(m, true) else m)
  {
    var m := n.(activeRead := Some(n.activeRead.value.(acks := n.activeRead.value.acks + {p})));
    CloseReadCloses(m, true);
    hide N.CloseRead;
  }

  /** The answer to the open round: a majority closes it with success, every callback told in order; less does not. */
  lemma OnReadAckConfirms(n: N.Node, p: Id, number: nat)
    requires N.WellFormed(n) && p in n.peers && n.status == Leader && Awaits(n, number)
    ensures Confirms(n, p, N.OnReadAck(n, p, number))
  {
    var m := n.(activeRead := Some(n.activeRead.value.(acks := n.activeRead.value.acks + {p})));
    var k := if Completes(n, p) then N.CloseRead(m, true) else m;
    AckRecorded(n, p);
    ContinueStill(k, p, false);
    ContinueTerm(k, p);
    assert N.OnReadAck(n, p, number) == N.Continue(k, p, false);
    hide N.Continue, N.CloseRead, Confirms;
    ThenSends(n, p, k, N.Continue(k, p, false));
  }

  lemma OnReadAckStale(n: N.Node, p: Id, number: nat)
    requires N.WellFormed(n) && p in n.peers && n.status == Leader && !Awaits(n, number)
    ensures N.OnReadAck(n, p, number) == n
  {
  }

  /** Is this the successful answer to a read heartbeat of the leader's term? */
  predicate AnswersRead(n: N.Node, request: AppendArgs, reply: Option<AppendReply>) {
    && n.status == Leader && request.term == n.currentTerm && reply.Some? && reply.value.term == n.currentTerm
    && reply.value.success && reply.value.readRound.Some? && reply.value.readRound.value > 0
  }

  lemma OnAppendReplyOrdinary(n: N.Node, p: Id, request: AppendArgs, reply: Option<AppendReply>)
    requires N.WellFormed(n) && p in n.peers && N.OwnRequest(n, request)
    requires !(AnswersRead(n, request, reply) && Awaits(n, reply.value.readRound.value))
    ensures Ordinary(n, N.OnAppendReply(n, p, request, reply))
  {
    SameFields(n, n);
    StillIsOrdinary(n, n);
    if n.status == Leader && request.term == n.currentTerm {
      var m := N.Idle(n, p);
      IdleStill(n, p);
      StillIsOrdinary(n, m);
      if reply.Some? && reply.value.term > n.currentTerm {
        BecomeFollowerOrdinary(m, reply.value.term);
        StillThen(n, m, N.BecomeFollower(m, reply.value.term));
      }
      if reply.Some? && reply.value.term == n.currentTerm { OnAppendAnswerOrdinary(n, m, p, request, reply.value); }
    }
    hide N.OnAppendAnswer, N.BecomeFollower, Ordinary, Still, N.Idle;
  }

  lemma MatchedOrdinary(n: N.Node, m: N.Node, p: Id, index: int)
    requires N.WellFormed(m) && p in m.peers && m.status == Leader && Still(n, m) && index <= N.LastIndex(m)
    ensures Ordinary(n, N.OnMatch(m, p, index))
  {
    hide N.OnMatch;
    OnMatchOrdinary(m, p, index);
    StillThen(n, m, N.OnMatch(m, p, index));
  }

  lemma RetriedOrdinary(n: N.Node, m: N.Node, p: Id, suggestion: int)
    requires N.WellFormed(m) && p in m.peers && m.status == Leader && Still(n, m)
    ensures Ordinary(n, N.Retry(m, p, suggestion))
  {
    hide N.Retry;
    RetryStill(m, p, suggestion);
    StillTrans(n, m, N.Retry(m, p, suggestion));
    StillIsOrdinary(n, N.Retry(m, p, suggestion));
  }

  lemma StaleAckOrdinary(n: N.Node, m: N.Node, p: Id, number: nat)
    requires N.WellFormed(m) && p in m.peers && m.status == Leader && Still(n, m) && m.currentTerm == n.currentTerm
    requires !Awaits(n, number)
    ensures Ordinary(n, N.OnReadAck(m, p, number))
  {
    hide N.OnReadAck;
    StillAwaits(n, m, number);
    OnReadAckStale(m, p, number);
    StillIsOrdinary(n, m);
  }

  lemma OnAppendAnswerOrdinary(n: N.Node, m: N.Node, p: Id, request: AppendArgs, a: AppendReply)
    requires N.WellFormed(m) && p in m.peers && m.status == Leader && Still(n, m) && m.currentTerm == n.currentTerm
    requires request.prevIndex + |request.entries| <= N.LastIndex(m)
    requires a.success && a.readRound.Some? && a.readRound.value > 0 ==> !Awaits(n, a.readRound.value)
    ensures Ordinary(n, N.OnAppendAnswer(m, p, request, a))
  {
    hide N.OnReadAck, N.OnMatch, N.Retry, N.WellFormed, N.LastIndex, Ordinary, Still, Awaits;
    if a.success && a.readRound.Some? && a.readRound.value > 0 {
      StaleAckOrdinary(n, m, p, a.readRound.value);
    } else if a.success {
      MatchedOrdinary(n, m, p, request.prevIndex + |request.entries|);
    } else {
      RetriedOrdinary(n, m, p, a.updateNextIndex);
    }
  }

  lemma StillAwaits(n: N.Node, m: N.Node, number: nat)
    requires Still(n, m) && m.currentTerm == n.currentTerm
    ensures Awaits(m, number) == Awaits(n, number)
  {
  }

  /** The whole handler, on the answer to the open round. */
  lemma OnAppendReplyConfirms(n: N.Node, p: Id, request: AppendArgs, reply: Option<AppendReply>)
    requires N.WellFormed(n) && p in n.peers && N.OwnRequest(n, request)
    requires AnswersRead(n, request, reply) && Awaits(n, reply.value.readRound.value)
    ensures Confirms(n, p, N.OnAppendReply(n, p, request, reply))
  {
    var m, number := N.Idle(n, p), reply.value.readRound.value;
    OnReadAckConfirms(m, p, number);
    assert N.OnAppendReply(n, p, request, reply) == N.OnReadAck(m, p, number);
    hide N.OnReadAck;
  }

  // ---------------------------------------------------------------- calls from the state machine

  lemma StartOrdinary(n: N.Node, op: Op)
    requires N.WellFormed(n)
    ensures Ordinary(n, N.Start(n, op))
  {
    SameFields(n, n);
    StillIsOrdinary(n, n);
    if n.status == Leader {
      var m := N.AppendEntry(n, op);
      AppendEntryStill(n, op);
      UpdateCommitFeeds(m);
      var u := N.UpdateCommit(m);
      ScheduleAllStill(u);
      var v := N.ScheduleAllReplication(u);
      var w := v.(out := v.out + [Started(Entry(n.currentTerm, N.LastIndex(n) + 1, op))]);
      AddsSilently(v, w, [Started(Entry(n.currentTerm, N.LastIndex(n) + 1, op))]);
      assert N.Start(n, op) == w;
      hide N.AppendEntry, N.UpdateCommit, N.ScheduleAllReplication, N.Start, Ordinary, Still;
      StillThen(n, m, u);
      ThenStill(n, u, v);
      ThenStill(n, v, w);
    }
  }

  /** A read: refused at once, joined to the open round, or the first of a new round at the commit index of now. */
  predicate Asks(n: N.Node, round: nat, callback: nat, r: N.Node) {
    && Onward(n, r) && SameApplied(n, r) && r.currentTerm == n.currentTerm
    && if n.status != Leader || !n.currentTermCommitted then
         && r.activeRead == n.activeRead
         && ReadAnswers(r.out) == ReadAnswers(n.out) + [Answer(callback, false, if n.status != Leader then -1 else -2,
                                                         if n.status != Leader then -1 else -2)]
       else
         && ReadAnswers(r.out) == ReadAnswers(n.out)
         && r.activeRead == Some(if n.activeRead.Some?
              then n.activeRead.value.(callbacks := n.activeRead.value.callbacks + [callback])
              else N.ReadRound(round, n.currentTerm, n.commitIndex, {n.id}, [callback]))
  }

  lemma HeartBeatFirstTerm(n: N.Node, round: nat, k: nat)
    requires N.WellFormed(n) && k <= |n.peers| && forall p | p in n.peers :: N.HeartBeatSafe(n, p)
    ensures N.HeartBeatFirst(n, round, k).currentTerm == n.currentTerm
  {
  }

  lemma OpeningIs(n: N.Node, round: nat, callback: nat)
    requires N.WellFormed(n) && n.activeRead == None
    ensures var m := N.OpenRound(n, round, callback);
            && Onward(n, m) && SameApplied(n, m) && m.currentTerm == n.currentTerm
            && ReadAnswers(m.out) == ReadAnswers(n.out)
            && m.activeRead == Some(N.ReadRound(round, n.currentTerm, n.commitIndex, {n.id}, [callback]))
  {
    SilentAdds(n.out, [Opened(n.currentTerm, round, n.commitIndex)]);
  }

  lemma RefusalAsks(n: N.Node, round: nat, callback: nat, code: int)
    requires n.status != Leader || !n.currentTermCommitted
    requires code == if n.status != Leader then -1 else -2
    ensures Asks(n, round, callback, n.(out := n.out + [Answer(callback, false, code, code)]))
  {
    OnlyAnswers([Answer(callback, false, code, code)]);
    PartsOf(n.out, [Answer(callback, false, code, code)]);
  }

  lemma OpensSafely(n: N.Node, round: nat, callback: nat)
    requires N.WellFormed(n) && forall p | p in n.peers :: N.HeartBeatSafe(n, p)
    ensures var m := N.OpenRound(n, round, callback);
            m.peers == n.peers && forall p | p in m.peers :: N.HeartBeatSafe(m, p)
  {
  }

  lemma OpenedThenStill(n: N.Node, round: nat, callback: nat, r: N.Node)
    requires N.WellFormed(n) && N.OpensRound(n)
    requires Still(N.OpenRound(n, round, callback), r) && r.currentTerm == n.currentTerm
    ensures Asks(n, round, callback, r)
  {
    OpeningIs(n, round, callback);
    hide N.OpenRound, N.WellFormed;
  }

  lemma OpeningAsks(n: N.Node, round: nat, callback: nat)
    requires N.WellFormed(n) && N.OpensRound(n) && forall p | p in n.peers :: N.HeartBeatSafe(n, p)
    ensures var m := N.OpenRound(n, round, callback);
            && m.peers == n.peers && (forall p | p in m.peers :: N.HeartBeatSafe(m, p))
            && Asks(n, round, callback, N.HeartBeatFirst(m, round, |n.peers|))
  {
    OpensSafely(n, round, callback);
    var m := N.OpenRound(n, round, callback);
    assert m.currentTerm == n.currentTerm;
    hide N.OpenRound, N.HeartBeatFirst, N.WellFormed, N.HeartBeatSafe, Asks, Still;
    HeartBeatFirstStill(m, round, |n.peers|);
    HeartBeatFirstTerm(m, round, |n.peers|);
    OpenedThenStill(n, round, callback, N.HeartBeatFirst(m, round, |n.peers|));
  }

  lemma ReadIndexAsks(n: N.Node, round: nat, callback: nat)
    requires N.WellFormed(n) && n.readIndexRound < round && N.ReadSafe(n)
    ensures Asks(n, round, callback, N.ReadIndex(n, round, callback))
  {
    if n.status != Leader || !n.currentTermCommitted {
      RefusalAsks(n, round, callback, if n.status != Leader then -1 else -2);
      hide Asks, N.OpenRound, N.HeartBeatFirst, N.JoinRound;
    } else if n.activeRead.None? {
      OpeningAsks(n, round, callback);
      hide Asks, N.OpenRound, N.HeartBeatFirst, N.JoinRound;
    }
  }

  // ---------------------------------------------------------------- stepping down, compaction, snapshots, restart

  lemma StepDownCloses(n: N.Node)
    ensures var r := N.StepDown(n);
            && Onward(n, r) && SameApplied(n, r) && Closes(n, r, false)
            && r.status == Follower && r.currentTerm == n.currentTerm
  {
    var m := n.(status := Follower, votesGranted := 0, preVotesGranted := 0, pending := N.AllFalse(n.pending),
                inFlight := N.AllFalse(n.inFlight), currentTermCommitted := false);
    CloseReadCloses(m, false);
    assert N.StepDown(n) == N.CloseRead(m, false);
  }

  /** Compaction up to index: that snapshot is on disk with its own data, or nothing has changed. */
  predicate CompactsTo(n: N.Node, index: int, data: string, r: N.Node) {
    && r.id == n.id && r.peers == n.peers && r.out == n.out && r.applyQueue == n.applyQueue
    && r.activeRead == n.activeRead && r.commitIndex == n.commitIndex && r.currentTerm == n.currentTerm
    && if n.snapIndex < index <= n.commitIndex
       then r.snapIndex == index && r.disk.snapshot == data && r.lastApplied == N.Max(n.lastApplied, index)
       else r == n
  }

  lemma DoSnapshotCompacts(n: N.Node, index: int, data: string)
    requires N.WellFormed(n) && n.commitIndex <= N.LastIndex(n)
    ensures CompactsTo(n, index, data, N.DoSnapshot(n, index, data))
  {
  }

  /** A snapshot beyond the node's own, in a term not past: it replaces it, data and all, and goes to the queue. */
  predicate Installs(n: N.Node, a: SnapshotArgs, r: N.Node) {
    var msg := SnapshotMsg(a.data, a.lastIndex, a.lastTerm);
    && r.id == n.id && r.peers == n.peers && n.currentTerm <= r.currentTerm && ReadStays(n, r)
    && r.snapIndex == a.lastIndex && r.disk.snapshot == a.data
    && r.applyQueue == n.applyQueue + [msg] && Pushed(r.out) == Pushed(n.out) + [msg]
    && r.lastApplied == N.Max(n.lastApplied, a.lastIndex)
    && forall o | o in r.out && IsSnapshot(o) :: o in n.out || Carries(o, n)
  }

  lemma OnePush(msg: ApplyMsg)
    ensures Pushed([Apply(msg)]) == [msg] && ReadAnswers([Apply(msg)]) == []
  {
    var out := [Apply(msg)];
    assert out[..0] == [] && out[0].Apply?;
    assert Pushed(out) == Pushed(out[..0]) + [msg] && ReadAnswers(out) == ReadAnswers(out[..0]) + [];
  }

  lemma InstallIs(m: N.Node, a: SnapshotArgs)
    requires N.WellFormed(m) && m.status == Follower && m.snapIndex < a.lastIndex
    ensures var r, msg := N.Install(m, a), SnapshotMsg(a.data, a.lastIndex, a.lastTerm);
            && r.id == m.id && r.peers == m.peers && r.currentTerm == m.currentTerm && r.activeRead == m.activeRead
            && r.snapIndex == a.lastIndex && r.disk.snapshot == a.data
            && r.applyQueue == m.applyQueue + [msg] && r.out == m.out + [Apply(msg)]
            && r.lastApplied == N.Max(m.lastApplied, a.lastIndex)
  {
    hide N.WellFormed, N.KeepsSuffix;
  }

  lemma InstallInstalls(n: N.Node, m: N.Node, a: SnapshotArgs)
    requires Ordinary(n, m) && SameApplied(n, m) && N.WellFormed(m) && m.status == Follower && m.snapIndex < a.lastIndex
    ensures Installs(n, a, N.Install(m, a))
  {
    var msg := SnapshotMsg(a.data, a.lastIndex, a.lastTerm);
    InstallIs(m, a);
    OnePush(msg);
    PartsOf(m.out, [Apply(msg)]);
    hide N.Install, N.WellFormed, Feeds, Pushed, ReadAnswers;
    assert ReadAnswers(m.out) + [] == ReadAnswers(m.out);
  }

  lemma SeeTermApplied(n: N.Node, t: int)
    ensures SameApplied(n, N.SeeTerm(n, t))
  {
    if t > n.currentTerm {
      var m := N.Persist(n.(currentTerm := t, votedFor := NO_VOTE))
                .(status := Follower, votesGranted := 0, preVotesGranted := 0, currentTermCommitted := false);
      CloseReadCloses(m, false);
      assert N.SeeTerm(n, t) == N.CloseRead(m, false);
      hide N.CloseRead;
    }
  }

  /** Exactly the snapshots beyond the node's own, in a term not past, are installed. */
  lemma TakeSnapshotInstalls(n: N.Node, a: SnapshotArgs)
    requires N.WellFormed(n)
    ensures if n.currentTerm <= a.term && n.snapIndex < a.lastIndex then Installs(n, a, N.TakeSnapshot(n, a).0)
            else Ordinary(n, N.TakeSnapshot(n, a).0)
  {
    var m := N.SeeTerm(n, a.term);
    SeeTermOrdinary(n, a.term);
    SeeTermApplied(n, a.term);
    if a.term >= m.currentTerm {
      var f := m.(status := Follower);
      SameFields(m, f);
      ThenStill(n, m, f);
      if a.lastIndex > f.snapIndex { InstallInstalls(n, f, a); }
    }
    hide N.SeeTerm, N.Install, Ordinary, Installs;
    SeeTermCurrent(n, a.term);
  }

  lemma SeeTermCurrent(n: N.Node, t: int)
    ensures N.SeeTerm(n, t).currentTerm == N.Max(n.currentTerm, t) && N.SeeTerm(n, t).snapIndex == n.snapIndex
  {
  }

  /** A restarted node owes nobody an answer, has pushed nothing and starts from its snapshot. */
  lemma BootStarts(id: Id, peers: seq<Id>, disk: N.Disk)
    ensures var r := N.Boot(id, peers, disk);
            && r.id == id && r.peers == peers && r.disk == disk && r.out == [] && r.applyQueue == []
            && r.activeRead == None && r.snapIndex == disk.state.snapIndex
            && (disk.state.snapIndex >= 0 ==> r.lastApplied == r.commitIndex == r.snapIndex)
  {
  }
}
