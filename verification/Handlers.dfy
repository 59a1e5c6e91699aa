/**
 * Every handler, started in a state that the histories explain, ends in one they explain, sends only sound messages
 * and applies only committed entries.  The out-parameter h is the histories after the handler.
 */
module Handlers {
  import opened Types
  import opened History
  import opened Steps
  import opened Relation
  import N = Node

  lemma OutAppend(g: History, i: Id, a: seq<Output>, b: seq<Output>)
    requires OutSound(g, i, a) && OutSound(g, i, b)
    ensures OutSound(g, i, a + b)
  {
    forall j | 0 <= j < |a + b| ensures OutputSound(g, i, (a + b)[j]) {
      assert j < |a| ==> OutputSound(g, i, a[j]);
      assert |a| <= j ==> OutputSound(g, i, b[j - |a|]);
    }
  }

  lemma OutPush(g: History, i: Id, out: seq<Output>, o: Output)
    requires OutSound(g, i, out) && OutputSound(g, i, o)
    ensures OutSound(g, i, out + [o])
  {
    OutAppend(g, i, out, [o]);
  }

  /** Facts about a node's log that its relation to the full log gives. */
  lemma LogFacts(g: History, i: Id, n: N.Node)
    requires Inv(g) && Body(g, i, n)
    ensures N.LastIndex(n) == |g.log[i]| && N.LastTerm(n) == LastTerm(g.log[i])
    ensures forall m | n.snapIndex <= m <= |g.log[i]| :: N.TermOf(n, m) == TermAt(g.log[i], m)
    ensures LogOk(g, g.log[i], g.term[i]) && n.currentTerm >= 0
  {
    assert NodeOk(g, i);
  }

  // ---------------------------------------------------------------- terms

  /** Failing the open read leaves a follower with nothing to account for. */
  lemma FollowGood(g: History, i: Id, n: N.Node, m: N.Node, read: N.Node)
    requires DomainOk(g) && Body(g, i, n) && OutSound(g, i, n.out) && SameBody(n, m) && N.WellFormed(m)
    requires m.status == Follower && m.activeRead == None && !m.currentTermCommitted
    requires m.out == n.out + N.Closing(read, false)
    ensures Good(g, i, m)
  {
    BodyKept(g, i, n, m);
    OutAppend(g, i, n.out, N.Closing(read, false));
  }

  lemma RaiseTermBody(g: History, i: Id, n: N.Node, t: int)
    requires Inv(g) && Body(g, i, n) && n.currentTerm < t
    requires Inv(RaiseTerm(g, i, t))
    ensures Body(RaiseTerm(g, i, t), i, N.Persist(n.(currentTerm := t, votedFor := NO_VOTE)))
  {
    assert Ballot(i, t) in g.vote ==> VoteOk(g, Ballot(i, t));
  }

  lemma BecomeFollowerGood(g: History, i: Id, n: N.Node, t: int) returns (h: History)
    requires Inv(g) && Good(g, i, n) && n.currentTerm < t
    ensures Advance(g, h, i) && Good(h, i, N.BecomeFollower(n, t))
    ensures h == RaiseTerm(g, i, t)
  {
    h := RaiseTerm(g, i, t);
    RaiseTermAdvances(g, i, t);
    RaiseTermBody(g, i, n, t);
    OutGrows(g, h, i, n.out);
    FollowGood(h, i, N.Persist(n.(currentTerm := t, votedFor := NO_VOTE)), N.BecomeFollower(n, t), n);
  }

  lemma SeeTermGood(g: History, i: Id, n: N.Node, t: int) returns (h: History)
    requires Inv(g) && Good(g, i, n)
    ensures Advance(g, h, i) && Good(h, i, N.SeeTerm(n, t))
    ensures t <= N.SeeTerm(n, t).currentTerm == h.term[i]
    ensures t > n.currentTerm ==> N.SeeTerm(n, t).currentTerm == t
    ensures h == g.(term := h.term)
  {
    if t > n.currentTerm {
      h := BecomeFollowerGood(g, i, n, t);
    } else {
      h := g;
      AdvanceRefl(g, i);
    }
  }

  lemma StepDownGood(g: History, i: Id, n: N.Node)
    requires DomainOk(g) && Good(g, i, n)
    ensures Good(g, i, N.StepDown(n))
  {
    FollowGood(g, i, n, N.StepDown(n), n);
  }

  /** Only the leader of a term sends that term's requests, and never to itself. */
  lemma NotLeaderOf(g: History, i: Id, n: N.Node, l: Id, t: int)
    requires DomainOk(g) && Good(g, i, n) && Leads(g, l, t) && l != i && t == n.currentTerm
    ensures n.status != Leader && n.activeRead == None && !n.currentTermCommitted
    ensures Good(g, i, n.(status := Follower))
  {
    FollowGood(g, i, n, n.(status := Follower), n);
  }

  // ---------------------------------------------------------------- votes

  lemma VoteBody(g: History, i: Id, n: N.Node, c: Id)
    requires Inv(g) && Body(g, i, n) && n.votedFor == NO_VOTE && c != NO_VOTE && Inv(CastVote(g, i, c))
    ensures Body(CastVote(g, i, c), i, N.Persist(n.(votedFor := c)))
  {
  }

  lemma GrantGood(g: History, i: Id, n: N.Node, c: Id, a: VoteArgs) returns (h: History)
    requires Inv(g) && Good(g, i, n) && VoteSound(g, c, a) && a.term == n.currentTerm
    requires n.votedFor == NO_VOTE && N.WhetherVoteFor(n, a.lastIndex, a.lastTerm)
    ensures Advance(g, h, i) && Good(h, i, N.Persist(n.(votedFor := c)))
    ensures Ballot(i, a.term) in h.vote && h.vote[Ballot(i, a.term)] == c
  {
    assert StandOk(g, Ballot(c, a.term));
    LogFacts(g, i, n);
    h := CastVote(g, i, c);
    CastVoteAdvances(g, i, c);
    VoteBody(g, i, n, c);
    OutGrows(g, h, i, n.out);
    RolesGrow(g, h, i, n);
  }

  lemma CandidateNamed(g: History, c: Id, t: int)
    requires Inv(g) && Ballot(c, t) in g.stand
    ensures c != NO_VOTE
  {
    assert StandOk(g, Ballot(c, t));
  }

  lemma TakeVoteGood(g: History, i: Id, n: N.Node, c: Id, a: VoteArgs) returns (h: History)
    requires Inv(g) && Good(g, i, n) && VoteSound(g, c, a)
    ensures Advance(g, h, i) && Good(h, i, N.TakeVote(n, a).0)
    ensures ReplySound(h, i, RequestVote(a), VoteAnswer(N.TakeVote(n, a).1))
  {
    CandidateNamed(g, c, a.term);
    hide Coherent, LogRel, QueueRel, Roles, OutSound;
    h := SeeTermGood(g, i, n, a.term);
    var n1 := N.SeeTerm(n, a.term);
    if a.term == n1.currentTerm && n1.votedFor == NO_VOTE && N.WhetherVoteFor(n1, a.lastIndex, a.lastTerm) {
      var k := GrantGood(h, i, n1, c, a);
      AdvanceTrans(g, h, k, i);
      h := k;
    }
  }

  // ---------------------------------------------------------------- replication

  lemma SendingKept(g: History, i: Id, n: N.Node, m: N.Node)
    requires DomainOk(g) && Holds(g, i, n) && N.SameButSending(n, m) && N.WellFormed(m)
    ensures Holds(g, i, m)
  {
    BodyKept(g, i, n, m);
  }

  lemma TailOf(log: seq<Entry>, lo: int, mid: int)
    requires 0 <= lo <= mid <= |log|
    ensures log[lo..][mid - lo..] == log[mid..|log|]
  {
  }

  /** Every append request carries the leader's log from nextIndex on, and a commit index within it. */
  lemma BuildAppendSound(g: History, i: Id, n: N.Node, p: Id)
    requires DomainOk(g) && i in g.members && n.id == i && LogRel(g, i, n) && Rules(g, i) && N.WellFormed(n)
    requires Settled(g, g.term[i], g.log[i][..g.commit[i]])
    requires n.status == Leader && p in n.peers && n.snapIndex < n.nextIndex[p]
    ensures AppendSound(g, i, N.BuildAppend(n, p))
  {
    N.LastIndexIs(n);
    TailOf(g.log[i], n.snapIndex, n.nextIndex[p] - 1);
  }

  lemma BuildSnapshotSound(g: History, i: Id, n: N.Node)
    requires DomainOk(g) && i in g.members && n.id == i && LogRel(g, i, n) && Rules(g, i) && n.snapIndex >= 1
    requires Settled(g, g.term[i], g.log[i][..g.commit[i]])
    ensures SnapshotSound(g, i, N.BuildSnapshot(n))
  {
    SettledPrefix(g, g.term[i], g.log[i][..g.commit[i]], n.snapIndex);
    assert g.log[i][..g.commit[i]][..n.snapIndex] == g.log[i][..n.snapIndex];
  }

  /** What sending relies on: the leader's log is its term's, and what it calls committed is. */
  ghost predicate Speaks(g: History, i: Id, n: N.Node) {
    && DomainOk(g) && IdentityOk(g, i, n) && LogRel(g, i, n)
    && Settled(g, g.term[i], g.log[i][..g.commit[i]])
    && (n.status == Leader ==> Rules(g, i))
  }

  lemma HoldsSpeaks(g: History, i: Id, n: N.Node)
    requires Inv(g) && Holds(g, i, n)
    ensures Speaks(g, i, n)
  {
    assert NodeOk(g, i);
  }

  lemma RequestForSound(g: History, i: Id, n: N.Node, p: Id)
    requires Speaks(g, i, n) && N.WellFormed(n) && p in n.peers && n.status == Leader
    ensures OutputSound(g, i, Send(p, N.RequestFor(n, p)))
  {
    if n.nextIndex[p] <= n.snapIndex {
      BuildSnapshotSound(g, i, n);
    } else {
      BuildAppendSound(g, i, n, p);
    }
  }

  lemma ScheduleOut(g: History, i: Id, n: N.Node, p: Id)
    requires Speaks(g, i, n) && N.WellFormed(n) && OutSound(g, i, n.out) && p in n.peers
    ensures OutSound(g, i, N.ScheduleReplication(n, p).out)
  {
    if n.status == Leader && !n.inFlight[p] {
      RequestForSound(g, i, n, p);
      OutPush(g, i, n.out, Send(p, N.RequestFor(n, p)));
    }
  }

  lemma {:induction false} ScheduleFirstOut(g: History, i: Id, n: N.Node, k: nat)
    requires Speaks(g, i, n) && N.WellFormed(n) && OutSound(g, i, n.out) && k <= |n.peers|
    ensures OutSound(g, i, N.ScheduleFirst(n, k).out)
  {
    if k > 0 {
      ScheduleFirstOut(g, i, n, k - 1);
      ScheduleOut(g, i, N.ScheduleFirst(n, k - 1), n.peers[k - 1]);
    }
  }

  lemma ScheduleGood(g: History, i: Id, n: N.Node, p: Id)
    requires Inv(g) && Good(g, i, n) && p in n.peers
    ensures Good(g, i, N.ScheduleReplication(n, p))
  {
    HoldsSpeaks(g, i, n);
    ScheduleOut(g, i, n, p);
    SendingKept(g, i, n, N.ScheduleReplication(n, p));
  }

  lemma ScheduleAllGood(g: History, i: Id, n: N.Node)
    requires Inv(g) && Good(g, i, n)
    ensures Good(g, i, N.ScheduleAllReplication(n))
  {
    if n.status == Leader {
      HoldsSpeaks(g, i, n);
      ScheduleFirstOut(g, i, n, |n.peers|);
      SendingKept(g, i, n, N.ScheduleAllReplication(n));
    }
  }

  // ---------------------------------------------------------------- committing

  /** Commands taken from a committed stretch of a log are committed entries. */
  lemma CommandsSound(g: History, i: Id, log: seq<Entry>, bound: int, t: int, lo: int, hi: int)
    requires LogOk(g, log, bound) && 0 <= lo <= hi <= |log| && Settled(g, t, log[..hi])
    ensures OutSound(g, i, N.Applies(N.CommandsOf(log[lo..hi])))
  {
    if lo < hi {
      var c :| c in g.commits && SettledBy(g, t, log[..hi], c);
      forall j | 0 <= j < hi - lo ensures MsgSound(g, N.CommandsOf(log[lo..hi])[j]) {
        var e := log[lo + j];
        assert log[..hi][lo + j] == e;
        assert CommittedEntry(g, e.term, e.index, c);
      }
    }
  }

  lemma CommandsJoin(log: seq<Entry>, a: int, b: int, c: int)
    requires 0 <= a <= b <= c <= |log|
    ensures N.CommandsOf(log[a..b]) + N.CommandsOf(log[b..c]) == N.CommandsOf(log[a..c])
  {
    assert log[a..c] == log[a..b] + log[b..c];
  }

  lemma QueueGrows(log: seq<Entry>, q: seq<ApplyMsg>, last: int, m: int)
    requires 0 <= last <= m <= |log|
    requires |q| <= last && q == N.CommandsOf(log[last - |q|..last])
    ensures q + N.CommandsOf(log[last..m]) == N.CommandsOf(log[last - |q|..m])
  {
    CommandsJoin(log, last - |q|, last, m);
  }

  /** What the apply loop pushes when the commit point moves from the applied index to m. */
  lemma ApplyShape(g: History, i: Id, n: N.Node, m: int)
    requires DomainOk(g) && i in g.members && LogRel(g, i, n) && N.WellFormed(n) && n.commitIndex < m <= |g.log[i]|
    ensures N.LastIndex(n) == |g.log[i]|
    ensures var msgs := N.CommandsOf(g.log[i][n.lastApplied..m]);
            N.CommitAt(n, m) ==
            n.(commitIndex := m, lastApplied := m, applyQueue := n.applyQueue + msgs, out := n.out + N.Applies(msgs))
  {
    N.LastIndexIs(n);
    assert n.logs[n.lastApplied - n.snapIndex..m - n.snapIndex] == g.log[i][n.lastApplied..m];
  }

  /** Moving the commit point and draining the apply loop: the queue grows by the next stretch of the log. */
  lemma ApplyBody(g: History, i: Id, n: N.Node, m: int)
    requires DomainOk(g) && Body(g, i, n) && n.commitIndex < m <= |g.log[i]| && DomainOk(MoveCommit(g, i, m))
    requires N.LastIndex(n) == |g.log[i]|
    ensures Body(MoveCommit(g, i, m), i, N.CommitAt(n, m))
  {
    ApplyShape(g, i, n, m);
    var h, r := MoveCommit(g, i, m), N.CommitAt(n, m);
    if NoSnapshots(r.applyQueue) {
      assert NoSnapshots(n.applyQueue) by {
        assert forall j | 0 <= j < |n.applyQueue| :: r.applyQueue[j] == n.applyQueue[j];
      }
      QueueGrows(g.log[i], n.applyQueue, n.lastApplied, m);
    }
    assert QueueRel(h, i, r);
    assert LogRel(h, i, r);
  }

  lemma ApplyOut(g: History, i: Id, n: N.Node, m: int)
    requires DomainOk(g) && i in g.members && LogRel(g, i, n) && N.WellFormed(n) && n.commitIndex < m <= |g.log[i]|
    requires N.LastIndex(n) == |g.log[i]| && OutSound(g, i, n.out)
    requires LogOk(g, g.log[i], g.term[i]) && Settled(g, g.term[i], g.log[i][..m])
    ensures OutSound(g, i, N.CommitAt(n, m).out)
  {
    ApplyShape(g, i, n, m);
    CommandsSound(g, i, g.log[i], g.term[i], g.term[i], n.lastApplied, m);
    OutAppend(g, i, n.out, N.Applies(N.CommandsOf(g.log[i][n.lastApplied..m])));
  }

  /** The history and body part of moving a commit point. */
  lemma CommitAtBody(g: History, i: Id, n: N.Node, m: int) returns (h: History)
    requires Inv(g) && Body(g, i, n) && OutSound(g, i, n.out) && n.commitIndex < m <= |g.log[i]|
    requires Settled(g, g.term[i], g.log[i][..m]) && N.LastIndex(n) == |g.log[i]|
    ensures h == MoveCommit(g, i, m) && Advance(g, h, i)
    ensures Body(h, i, N.CommitAt(n, m)) && OutSound(h, i, N.CommitAt(n, m).out)
    ensures N.CommitAt(n, m).lastApplied == m
  {
    h := MoveCommit(g, i, m);
    MoveCommitAdvances(g, i, m);
    ApplyShape(g, i, n, m);
    ApplyBody(g, i, n, m);
    assert NodeOk(g, i);
    ApplyOut(g, i, n, m);
    OutGrows(g, h, i, N.CommitAt(n, m).out);
  }

  /** Roles does not look at the queue, the outputs, the applied index or the disk. */
  lemma RolesKept(g: History, i: Id, n: N.Node, m: N.Node)
    requires DomainOk(g) && i in g.members && N.PeersOk(n) && N.PeersOk(m) && Roles(g, i, n)
    requires m == n.(applyQueue := m.applyQueue, out := m.out, lastApplied := m.lastApplied, disk := m.disk)
    ensures Roles(g, i, m)
  {
  }

  lemma FollowerRoles(g: History, h: History, i: Id, n: N.Node, m: N.Node)
    requires DomainOk(g) && DomainOk(h) && Extends(g, h) && i in g.members && N.PeersOk(n) && Roles(g, i, n)
    requires n.status == Follower && N.PeersOk(m)
    requires m.status == Follower && m.activeRead == n.activeRead && m.currentTermCommitted == n.currentTermCommitted
    ensures Roles(h, i, m)
  {
  }

  lemma CommitToGood(g: History, i: Id, n: N.Node, m: int) returns (h: History)
    requires Inv(g) && Good(g, i, n) && n.status == Follower && n.commitIndex < m <= |g.log[i]|
    requires Settled(g, g.term[i], g.log[i][..m]) && N.LastIndex(n) == |g.log[i]|
    ensures Advance(g, h, i) && Good(h, i, N.CommitAt(n, m)) && h == MoveCommit(g, i, m)
  {
    h := CommitAtBody(g, i, n, m);
    FollowerRoles(g, h, i, n, N.CommitAt(n, m));
  }

  /** The peers known to store index, with the leader, as a set. */
  ghost function CreditedAmong(n: N.Node, index: int, k: nat): set<Id>
    requires N.PeersOk(n) && k <= |n.peers|
  {
    set j | 0 <= j < k && n.peers[j] in n.matchIndex && n.matchIndex[n.peers[j]] >= index :: n.peers[j]
  }

  lemma {:induction false} CreditedSize(n: N.Node, index: int, k: nat)
    requires N.PeersOk(n) && k <= |n.peers|
    ensures |CreditedAmong(n, index, k)| == N.Matched(n, index, k)
  {
    if k > 0 {
      CreditedSize(n, index, k - 1);
      var p := n.peers[k - 1];
      assert p in n.peers;
      if n.matchIndex[p] >= index {
        assert CreditedAmong(n, index, k) == CreditedAmong(n, index, k - 1) + {p};
        assert p !in CreditedAmong(n, index, k - 1);
      } else {
        assert CreditedAmong(n, index, k) == CreditedAmong(n, index, k - 1);
      }
    }
  }

  lemma {:induction false} PeersSize(peers: seq<Id>)
    requires N.Distinct(peers)
    ensures |(set p | p in peers)| == |peers|
  {
    if peers != [] {
      var rest := peers[..|peers| - 1];
      PeersSize(rest);
      assert (set p | p in peers) == (set p | p in rest) + {peers[|peers| - 1]};
    }
  }

  lemma ClusterSize(g: History, i: Id, n: N.Node)
    requires IdentityOk(g, i, n) && N.PeersOk(n)
    ensures |g.members| == |n.peers| + 1
  {
    PeersSize(n.peers);
    var peers := set p | p in n.peers;
    assert i !in peers && g.members == {i} + peers;
  }

  /** The leader's count of matchIndex certifies the entry, although a snapshot reply may have over-credited. */
  lemma CountCertifies(g: History, i: Id, n: N.Node, index: int)
    requires Inv(g) && Holds(g, i, n) && n.status == Leader && n.commitIndex < index <= N.LastIndex(n)
    requires N.Committable(n, index)
    ensures Certified(g, Commit(n.currentTerm, index))
  {
    LogFacts(g, i, n);
    var t := n.currentTerm;
    var q := CreditedAmong(n, index, |n.peers|) + {i};
    CreditedSize(n, index, |n.peers|);
    ClusterSize(g, i, n);
    forall v | v in q ensures v in g.members && RealAck(g, v, t, index) {
      if v != i { assert Accounted(g, n, v); }
    }
    assert IsQuorum(g.members, q) && AckedBy(g, q, t, index);
  }

  lemma LeaderCommitRoles(g: History, i: Id, n: N.Node, m: int)
    requires DomainOk(g) && Holds(g, i, n) && n.status == Leader && n.commitIndex < m <= |g.log[i]|
    requires ReignOk(g, n.currentTerm) && g.log[i][m - 1].term == n.currentTerm
    requires DomainOk(MoveCommit(Declare(g, Commit(n.currentTerm, m)), i, m))
    ensures Roles(MoveCommit(Declare(g, Commit(n.currentTerm, m)), i, m), i,
                  n.(commitIndex := m, lastApplied := m, currentTermCommitted := true))
  {
    var h := MoveCommit(Declare(g, Commit(n.currentTerm, m)), i, m);
    var r := n.(commitIndex := m, lastApplied := m, currentTermCommitted := true);
    forall p | p in r.peers ensures Accounted(h, r, p) {
      assert Accounted(g, n, p);
      assert Acked(h, p, n.currentTerm) == Acked(g, p, n.currentTerm);
    }
    assert ReadRel(h, i, r);
  }

  lemma DeclareSettles(g: History, i: Id, n: N.Node, m: int) returns (d: History)
    requires Inv(g) && Holds(g, i, n) && n.status == Leader && n.commitIndex < m <= |g.log[i]|
    requires Certified(g, Commit(n.currentTerm, m))
    ensures d == Declare(g, Commit(n.currentTerm, m)) && Advance(g, d, i) && Body(d, i, n)
    ensures Settled(d, d.term[i], d.log[i][..m])
  {
    d := Declare(g, Commit(n.currentTerm, m));
    DeclareAdvances(g, i, Commit(n.currentTerm, m));
    assert SettledBy(d, g.term[i], g.log[i][..m], Commit(n.currentTerm, m));
    BodyGrows(g, d, i, n);
  }

  lemma AnnounceOut(g: History, d: History, i: Id, n: N.Node, m: int)
    requires DomainOk(g) && DomainOk(d) && Extends(g, d) && OutSound(g, i, n.out) && N.WellFormed(n)
    requires n.commitIndex < m <= N.LastIndex(n) && i in d.members
    requires LogRel(d, i, n) && Rules(d, i) && Commit(n.currentTerm, m) in d.commits
    requires 1 <= m <= |d.log[i]| && d.log[i][m - 1].term == n.currentTerm && d.log[i][m - 1].index == m
    ensures OutSound(d, i, N.Announce(n, m).out)
  {
    OutGrows(g, d, i, n.out);
    N.LastIndexIs(n);
    assert n.logs[m - n.snapIndex - 1] == d.log[i][m - 1];
    OutPush(d, i, n.out, Committed(n.logs[m - n.snapIndex - 1]));
  }

  lemma LeaderCommitGood(g: History, i: Id, n: N.Node, m: int) returns (h: History)
    requires Inv(g) && Good(g, i, n) && n.status == Leader && n.commitIndex < m <= |g.log[i]|
    requires N.LastIndex(n) == |g.log[i]| && Certified(g, Commit(n.currentTerm, m))
    requires g.log[i][m - 1].term == n.currentTerm && g.log[i][m - 1].index == m
    ensures Advance(g, h, i) && Good(h, i, N.CommitAt(N.Announce(n, m), m)) && h.term == g.term
  {
    var d := DeclareSettles(g, i, n, m);
    var n1 := N.Announce(n, m);
    BodyKept(d, i, n, n1);
    AnnounceOut(g, d, i, n, m);
    h := CommitAtBody(d, i, n1, m);
    AdvanceTrans(g, d, h, i);
    assert ReignOk(g, n.currentTerm);
    LeaderCommitRoles(g, i, n, m);
    RolesKept(h, i, n.(commitIndex := m, lastApplied := m, currentTermCommitted := true), N.CommitAt(n1, m));
  }

  lemma UpdateCommitGood(g: History, i: Id, n: N.Node) returns (h: History)
    requires Inv(g) && Good(g, i, n) && n.status == Leader
    ensures Advance(g, h, i) && Good(h, i, N.UpdateCommit(n)) && h.term == g.term
  {
    var m := N.CommitScan(n, N.LastIndex(n));
    if m == n.commitIndex {
      h := g;
      AdvanceRefl(g, i);
    } else {
      CountCertifies(g, i, n, m);
      LogFacts(g, i, n);
      h := LeaderCommitGood(g, i, n, m);
    }
  }

  // ---------------------------------------------------------------- elections

  lemma AppendBody(g: History, i: Id, n: N.Node, op: Op, h: History)
    requires Inv(g) && Body(g, i, n) && Rules(g, i)
    requires h == LeaderAppend(g, i, op) && DomainOk(h) && N.WellFormed(N.AppendEntry(n, op))
    ensures Body(h, i, N.AppendEntry(n, op))
  {
    LogFacts(g, i, n);
    var r, e := N.AppendEntry(n, op), Entry(n.currentTerm, |g.log[i]| + 1, op);
    assert h.log[i] == g.log[i] + [e];
    assert h.log[i][n.snapIndex..] == g.log[i][n.snapIndex..] + [e];
    assert LogRel(h, i, r);
    if NoSnapshots(r.applyQueue) {
      assert h.log[i][r.lastApplied - |r.applyQueue|..r.lastApplied] ==
             g.log[i][r.lastApplied - |r.applyQueue|..r.lastApplied];
    }
    assert QueueRel(h, i, r);
  }

  lemma AppendRoles(g: History, i: Id, n: N.Node, op: Op, h: History)
    requires Inv(g) && Holds(g, i, n) && n.status == Leader
    requires h == LeaderAppend(g, i, op) && Advance(g, h, i) && Rules(h, i)
    ensures Roles(h, i, N.AppendEntry(n, op))
  {
    var r := N.AppendEntry(n, op);
    forall p | p in r.peers ensures Accounted(h, r, p) {
      assert Accounted(g, n, p);
      assert Acked(g, p, n.currentTerm) <= Acked(h, p, n.currentTerm);
    }
    ReadGrows(g, h, i, n);
    assert ReadRel(h, i, r);
  }

  lemma AppendEntryGood(g: History, i: Id, n: N.Node, op: Op) returns (h: History)
    requires Inv(g) && Good(g, i, n) && n.status == Leader
    ensures h == LeaderAppend(g, i, op) && Advance(g, h, i) && Good(h, i, N.AppendEntry(n, op))
  {
    h := LeaderAppend(g, i, op);
    LeaderAppendAdvances(g, i, op);
    AppendBody(g, i, n, op, h);
    AppendRoles(g, i, n, op, h);
    OutGrows(g, h, i, n.out);
  }

  /** Has the candidate the votes of a quorum? */
  ghost predicate Won(g: History, i: Id, n: N.Node)
    requires DomainOk(g) && i in g.members
  {
    n.status == Candidate && CandidateRel(g, i, n) && n.votesGranted >= N.Quorum(n)
  }

  lemma WonMayWin(g: History, i: Id, n: N.Node)
    requires Inv(g) && Body(g, i, n) && Won(g, i, n)
    ensures MayWin(g, i, g.tally[i])
  {
    ClusterSize(g, i, n);
    if g.term[i] in g.reign {
      OneWinner(g, i, g.tally[i]);
    }
  }

  /** A new leader, before it appends: nothing is known about the peers and nothing of its term exists. */
  ghost predicate Inaugurated(g: History, i: Id, n: N.Node)
    requires DomainOk(g)
  {
    && Body(g, i, n) && Rules(g, i) && n.status == Leader && !n.currentTermCommitted && n.activeRead == None
    && n.commitIndex <= |g.reign[n.currentTerm].base|
    && (forall p | p in n.peers :: n.matchIndex[p] == 0)
    && (forall c | c in g.commits :: c.term != n.currentTerm)
    && (forall r | r in g.rounds :: r.term != n.currentTerm)
  }

  lemma NothingOfTerm(g: History, t: int)
    requires Inv(g) && t !in g.reign
    ensures forall c | c in g.commits :: c.term != t
    ensures forall r | r in g.rounds :: r.term != t
  {
    forall c | c in g.commits ensures c.term != t {
      assert Certified(g, c);
    }
    forall r | r in g.rounds ensures r.term != t {
      assert RoundOk(g, r);
    }
  }

  lemma TakeOfficeBody(g: History, i: Id, n: N.Node, h: History)
    requires DomainOk(g) && Body(g, i, n) && OutSound(g, i, n.out)
    requires MayWin(g, i, g.tally[i]) && h == Elect(g, i, g.tally[i]) && DomainOk(h) && Extends(g, h)
    ensures Body(h, i, N.TakeOffice(n)) && OutSound(h, i, N.TakeOffice(n).out)
  {
    BodyGrows(g, h, i, n);
    BodyKept(h, i, n, N.TakeOffice(n));
    OutGrows(g, h, i, n.out);
    OutPush(h, i, n.out, Elected(n.currentTerm));
  }

  lemma TakeOfficeGood(g: History, i: Id, n: N.Node) returns (h: History)
    requires Inv(g) && Body(g, i, n) && OutSound(g, i, n.out) && Won(g, i, n)
    requires n.activeRead == None && !n.currentTermCommitted
    ensures Advance(g, h, i) && Inaugurated(h, i, N.TakeOffice(n)) && OutSound(h, i, N.TakeOffice(n).out)
  {
    WonMayWin(g, i, n);
    h := Elect(g, i, g.tally[i]);
    ElectAdvances(g, i, g.tally[i]);
    NothingOfTerm(g, n.currentTerm);
    TakeOfficeBody(g, i, n, h);
  }

  lemma FirstEntryRoles(g: History, i: Id, n: N.Node, op: Op, h: History)
    requires DomainOk(g) && Inaugurated(g, i, n)
    requires h == LeaderAppend(g, i, op) && DomainOk(h) && Rules(h, i)
    ensures Roles(h, i, N.AppendEntry(n, op))
  {
    var r := N.AppendEntry(n, op);
    forall p | p in r.peers ensures Accounted(h, r, p) {}
    assert Acked(h, i, r.currentTerm) == |h.log[i]|;
  }

  lemma FirstEntryGood(g: History, i: Id, n: N.Node, op: Op) returns (h: History)
    requires Inv(g) && Inaugurated(g, i, n) && OutSound(g, i, n.out)
    ensures Advance(g, h, i) && Good(h, i, N.AppendEntry(n, op))
  {
    h := LeaderAppend(g, i, op);
    LeaderAppendAdvances(g, i, op);
    AppendBody(g, i, n, op, h);
    FirstEntryRoles(g, i, n, op, h);
    OutGrows(g, h, i, n.out);
  }

  /** The node becomes leader with the quorum of distinct votes it has counted. */
  lemma BecomeLeaderGood(g: History, i: Id, n: N.Node, junk: int) returns (h: History)
    requires Inv(g) && Body(g, i, n) && OutSound(g, i, n.out) && Won(g, i, n)
    requires n.activeRead == None && !n.currentTermCommitted
    ensures Advance(g, h, i) && Good(h, i, N.BecomeLeader(n, junk))
  {
    var e := TakeOfficeGood(g, i, n);
    h := FirstEntryGood(e, i, N.TakeOffice(n), Noop(junk));
    AdvanceTrans(g, e, h, i);
    ScheduleAllGood(h, i, N.AppendEntry(N.TakeOffice(n), Noop(junk)));
  }

  lemma ToPeersSound(g: History, i: Id, n: N.Node, request: Request)
    requires IdentityOk(g, i, n) && N.PeersOk(n) && RequestSound(g, i, request)
    ensures OutSound(g, i, N.ToPeers(n, request))
  {
    forall j | 0 <= j < |n.peers| ensures OutputSound(g, i, N.ToPeers(n, request)[j]) {
      assert n.peers[j] in n.peers;
    }
  }

  lemma CampaignBody(g: History, i: Id, n: N.Node, h: History)
    requires Inv(g) && Body(g, i, n) && h == Stand(g, i, n.currentTerm + 1) && DomainOk(h)
    requires N.WellFormed(N.Campaign(n)) && i != NO_VOTE
    ensures Body(h, i, N.Campaign(n))
  {
  }

  lemma CampaignRoles(g: History, i: Id, n: N.Node, h: History)
    requires DomainOk(g) && i in g.members && n.currentTerm == g.term[i] && n.status != Leader
    requires ReadRel(g, i, n) && FlagRel(g, n)
    requires h == Stand(g, i, n.currentTerm + 1) && DomainOk(h)
    requires N.WellFormed(n) && n.id == i && !Leads(g, i, n.currentTerm + 1)
    ensures Roles(h, i, N.Campaign(n))
  {
  }

  lemma NotYetLeader(g: History, i: Id, t: int)
    requires Inv(g) && i in g.members && g.term[i] < t
    ensures !Leads(g, i, t)
  {
    StandFresh(g, i, t);
    assert t in g.reign ==> ReignOk(g, t);
  }

  /** Opening an election: a new term, a vote for itself, and requests that describe the log as it is. */
  lemma CampaignGood(g: History, i: Id, n: N.Node) returns (h: History)
    requires Inv(g) && Good(g, i, n) && n.status != Leader
    ensures Advance(g, h, i) && h == Stand(g, i, n.currentTerm + 1)
    ensures Good(h, i, N.Campaign(n)) && N.Campaign(n).votesGranted == 1
    ensures VoteSound(h, i, N.VoteRequestOf(N.Campaign(n)))
  {
    h := Stand(g, i, n.currentTerm + 1);
    StandAdvances(g, i, n.currentTerm + 1);
    CampaignBody(g, i, n, h);
    OutGrows(g, h, i, n.out);
    LogFacts(h, i, N.Campaign(n));
    NotYetLeader(g, i, n.currentTerm + 1);
    CampaignRoles(g, i, n, h);
  }

  lemma BeginElectionGood(g: History, i: Id, n: N.Node, junk: int) returns (h: History)
    requires Inv(g) && Good(g, i, n) && n.status != Leader
    ensures Advance(g, h, i) && Good(h, i, N.BeginElection(n, junk))
  {
    h := CampaignGood(g, i, n);
    var n1 := N.Campaign(n);
    var request := RequestVote(N.VoteRequestOf(n1));
    ToPeersSound(h, i, n1, request);
    OutAppend(h, i, n1.out, N.ToPeers(n1, request));
    var n2 := N.Canvass(n1);
    SendingKept(h, i, n1, n2);
    if n2.votesGranted >= N.Quorum(n2) {
      var k := BecomeLeaderGood(h, i, n2, junk);
      AdvanceTrans(g, h, k, i);
      h := k;
    }
  }

  lemma BeginPreVoteGood(g: History, i: Id, n: N.Node, junk: int) returns (h: History)
    requires Inv(g) && Good(g, i, n)
    ensures Advance(g, h, i) && Good(h, i, N.BeginPreVote(n, junk))
  {
    h := g;
    AdvanceRefl(g, i);
    if n.status != Leader {
      var n1 := N.Probe(n);
      BodyKept(g, i, n, n1);
      var request := PreVote(N.VoteRequestOf(n).(term := n1.preVoteTerm), n1.preVoteRound);
      ToPeersSound(g, i, n, request);
      OutAppend(g, i, n.out, N.ToPeers(n, request));
      if n1.preVotesGranted >= N.Quorum(n1) {
        h := BeginElectionGood(g, i, n1, junk);
      }
    }
  }

  lemma CountPreVoteGood(g: History, i: Id, n: N.Node, junk: int) returns (h: History)
    requires Inv(g) && Good(g, i, n) && n.status == PreCandidate
    ensures Advance(g, h, i) && Good(h, i, N.CountPreVote(n, junk))
  {
    h := g;
    AdvanceRefl(g, i);
    var n1 := n.(preVotesGranted := n.preVotesGranted + 1);
    BodyKept(g, i, n, n1);
    if n1.preVotesGranted >= N.Quorum(n1) {
      h := BeginElectionGood(g, i, n1, junk);
    }
  }

  lemma OnPreVoteReplyGood(g: History, i: Id, n: N.Node, term: int, round: int, reply: Option<VoteReply>, junk: int)
    returns (h: History)
    requires Inv(g) && Good(g, i, n)
    ensures Advance(g, h, i) && Good(h, i, N.OnPreVoteReply(n, term, round, reply, junk))
  {
    hide Coherent, LogRel, QueueRel, OutSound, VoteRel, Roles, N.CountPreVote;
    h := g;
    AdvanceRefl(g, i);
    if reply.Some? {
      if reply.value.term > n.currentTerm {
        h := BecomeFollowerGood(g, i, n, reply.value.term);
      } else if n.status == PreCandidate && term == n.preVoteTerm && round == n.preVoteRound && reply.value.granted {
        h := CountPreVoteGood(g, i, n, junk);
      }
    }
  }

  /** One more distinct voter. */
  lemma CountedVoter(g: History, i: Id, n: N.Node, p: Id, h: History)
    requires DomainOk(g) && i in g.members && CandidateRel(g, i, n) && n.status == Candidate
    requires p in g.members && p !in g.tally[i]
    requires Ballot(p, n.currentTerm) in g.vote && g.vote[Ballot(p, n.currentTerm)] == i
    requires h == Tally(g, i, g.tally[i] + {p}) && DomainOk(h)
    ensures CandidateRel(h, i, n.(votesGranted := n.votesGranted + 1))
  {
  }

  lemma CountedRoles(g: History, i: Id, n: N.Node, p: Id, h: History)
    requires DomainOk(g) && Holds(g, i, n) && n.status == Candidate && p in g.members && p !in g.tally[i]
    requires Ballot(p, n.currentTerm) in g.vote && g.vote[Ballot(p, n.currentTerm)] == i
    requires h == Tally(g, i, g.tally[i] + {p}) && DomainOk(h)
    ensures Holds(h, i, n.(votesGranted := n.votesGranted + 1))
  {
    CountedVoter(g, i, n, p, h);
    BodyGrows(g, h, i, n);
    BodyKept(h, i, n, n.(votesGranted := n.votesGranted + 1));
  }

  lemma AddVoteGood(g: History, i: Id, n: N.Node, p: Id) returns (h: History)
    requires Inv(g) && Good(g, i, n) && n.status == Candidate && p in g.members && p !in g.tally[i]
    requires Ballot(p, n.currentTerm) in g.vote && g.vote[Ballot(p, n.currentTerm)] == i
    ensures h == Tally(g, i, g.tally[i] + {p}) && Evolves(g, h, i)
    ensures Good(h, i, n.(votesGranted := n.votesGranted + 1))
  {
    h := Tally(g, i, g.tally[i] + {p});
    TallyAdvances(g, i, g.tally[i] + {p});
    CountedRoles(g, i, n, p, h);
    OutGrows(g, h, i, n.out);
  }

  lemma CountVoteGood(g: History, i: Id, n: N.Node, p: Id, junk: int) returns (h: History)
    requires Inv(g) && Good(g, i, n) && n.status == Candidate && p in g.members && p !in g.tally[i]
    requires Ballot(p, n.currentTerm) in g.vote && g.vote[Ballot(p, n.currentTerm)] == i
    ensures Evolves(g, h, i) && h.rounds == g.rounds && TallyWithin(g, h, i, {p})
    ensures Good(h, i, N.CountVote(n, junk))
  {
    hide Coherent, LogRel, QueueRel, OutSound, VoteRel, N.BecomeLeader;
    h := AddVoteGood(g, i, n, p);
    var n1 := n.(votesGranted := n.votesGranted + 1);
    if n1.votesGranted >= N.Quorum(n1) {
      var k := BecomeLeaderGood(h, i, n1, junk);
      EvolvesTrans(g, h, k, i);
      h := k;
    }
  }

  lemma OnVoteReplyGood(g: History, i: Id, n: N.Node, p: Id, term: int, reply: Option<VoteReply>, junk: int)
    returns (h: History)
    requires Inv(g) && Good(g, i, n) && p in g.members
    requires reply.Some? && reply.value.granted ==>
      Ballot(p, term) in g.vote && g.vote[Ballot(p, term)] == i
    requires n.status == Candidate && term == n.currentTerm ==> p !in g.tally[i]
    ensures Evolves(g, h, i) && h.rounds == g.rounds
    ensures TallyWithin(g, h, i, if term == n.currentTerm then {p} else {})
    ensures Good(h, i, N.OnVoteReply(n, term, reply, junk))
  {
    hide Coherent, LogRel, QueueRel, OutSound, VoteRel, N.BecomeLeader;
    h := g;
    AdvanceRefl(g, i);
    if reply.Some? {
      if reply.value.term > n.currentTerm {
        h := BecomeFollowerGood(g, i, n, reply.value.term);
      } else if n.status == Candidate && term == n.currentTerm && n.electionTerm == n.currentTerm
                && reply.value.granted {
        h := CountVoteGood(g, i, n, p, junk);
      }
    }
  }

  // ---------------------------------------------------------------- appending

  lemma PrefixShrinks(p: seq<Entry>, l: seq<Entry>, j: int)
    requires 0 <= j < |p|
    ensures p[..j + 1] <= l ==> p[..j] <= l
  {
    assert p[..j + 1][..j] == p[..j];
  }

  /** One more incoming entry, on the compacted log and on the full one. */
  lemma MergeOneAdopts(g: History, l: seq<Entry>, bl: int, p: seq<Entry>, bp: int, snap: int, j: int)
    requires LogOk(g, l, bl) && LogOk(g, p, bp) && 0 <= snap <= j < |p|
    requires var a := Adopt(l, p[..j]); snap <= |a| && N.Contiguous(a[snap..], snap)
    ensures var a := Adopt(l, p[..j]);
            snap < p[j].index <= snap + |a[snap..]| + 1
            && N.MergeOne(a[snap..], snap, p[j]).0 == Adopt(l, p[..j + 1])[snap..]
  {
    var a := Adopt(l, p[..j]);
    assert p[..j + 1] == p[..j] + [p[j]];
    if p[..j] <= l {
      assert a == l && l[..j] == p[..j];
      if j < |l| {
        assert a[snap..][j - snap] == l[j];
        if l[j].term == p[j].term {
          SameTermSamePrefix(g, l, bl, p, bp, j + 1);
          assert l[..j + 1] == p[..j + 1];
        } else {
          assert l[snap..][..j - snap] + [p[j]] == p[..j + 1][snap..];
          assert p[..j + 1][j] != l[j];
        }
      } else {
        assert l[snap..] + [p[j]] == p[..j + 1][snap..];
      }
    } else {
      assert a == p[..j];
      PrefixShrinks(p, l, j);
      assert a[snap..] + [p[j]] == p[..j + 1][snap..];
    }
  }

  lemma MergeLast(logs: seq<Entry>, snap: int, prev: int, entries: seq<Entry>)
    requires N.Contiguous(logs, snap) && snap <= prev <= snap + |logs| && N.Contiguous(entries, prev) && entries != []
    ensures var last := |entries| - 1;
            N.Merge(logs, snap, prev, entries).0
            == N.MergeOne(N.Merge(logs, snap, prev, entries[..last]).0, snap, entries[last]).0
  {
  }

  /** The merge of the entries from lo to hi is what is left, above the snapshot point, of adopting p up to hi. */
  ghost predicate MergeAgrees(l: seq<Entry>, p: seq<Entry>, snap: int, lo: int, hi: int)
    requires 0 <= snap <= lo <= |l| && lo <= hi <= |p| && N.Contiguous(l[snap..], snap)
  {
    && N.Contiguous(p[lo..hi], lo) && snap <= |Adopt(l, p[..hi])|
    && N.Merge(l[snap..], snap, lo, p[lo..hi]).0 == Adopt(l, p[..hi])[snap..]
  }

  lemma MergesNext(g: History, l: seq<Entry>, bl: int, p: seq<Entry>, bp: int, snap: int, lo: int, hi: int)
    requires LogOk(g, l, bl) && LogOk(g, p, bp) && 0 <= snap <= lo <= |l| && lo < hi <= |p|
    requires N.Contiguous(l[snap..], snap) && MergeAgrees(l, p, snap, lo, hi - 1)
    ensures MergeAgrees(l, p, snap, lo, hi)
  {
    hide N.Merge, N.MergeOne, Adopt;
    MergeOneAdopts(g, l, bl, p, bp, snap, hi - 1);
    var entries := p[lo..hi];
    assert entries[..|entries| - 1] == p[lo..hi - 1] && entries[|entries| - 1] == p[hi - 1];
    hide LogOk;
    MergeLast(l[snap..], snap, lo, entries);
  }

  /** The loop of handleAppendEntries adopts the leader's log up to the last entry sent. */
  lemma {:induction false} MergeAdopts(g: History, l: seq<Entry>, bl: int, p: seq<Entry>, bp: int, snap: int, lo: int,
                                       hi: int)
    requires LogOk(g, l, bl) && LogOk(g, p, bp) && 0 <= snap <= lo <= |l| && lo <= hi <= |p|
    requires l[..lo] == p[..lo] && N.Contiguous(l[snap..], snap)
    ensures MergeAgrees(l, p, snap, lo, hi)
  {
    if lo < hi {
      MergeAdopts(g, l, bl, p, bp, snap, lo, hi - 1);
      MergesNext(g, l, bl, p, bp, snap, lo, hi);
    } else {
      assert p[..lo] <= l;
    }
  }

  /** What the rest of the proof needs to know of the step that adopts k entries of term t's leader. */
  ghost predicate Accepted(g: History, h: History, i: Id, t: int, k: int)
    requires DomainOk(g) && i in g.members
  {
    && DomainOk(h) && h.members == g.members && h.term == g.term && h.commit == g.commit && h.vote == g.vote
    && t in g.reign && t in h.reign && 0 <= k <= |g.reign[t].log| && h.reign[t] == g.reign[t]
    && h.log[i] == Adopt(g.log[i], g.reign[t].log[..k])
    && k <= Acked(h, i, t)
  }

  lemma AcceptStep(g: History, i: Id, k: int) returns (h: History)
    requires Inv(g) && i in g.members && MayAccept(g, i, k)
    ensures Advance(g, h, i) && Accepted(g, h, i, g.term[i], k)
  {
    h := Accept(g, i, k);
    AcceptAdvances(g, i, k);
  }

  /** The log part of the relation, when the full log changes only beyond the commit point. */
  lemma NewLogBody(g: History, i: Id, n: N.Node, h: History, m: N.Node)
    requires DomainOk(g) && Body(g, i, n) && DomainOk(h) && h.members == g.members && N.WellFormed(m)
    requires h.term[i] == g.term[i] && h.commit[i] == g.commit[i] && h.vote == g.vote
    requires m.disk.state == N.PersistentOf(m)
    requires m == n.(logs := m.logs, disk := m.disk)
    requires g.commit[i] <= |h.log[i]| && h.log[i][..g.commit[i]] == g.log[i][..g.commit[i]]
    requires m.logs == h.log[i][n.snapIndex..]
    ensures Body(h, i, m)
  {
    SamePrefixFacts(g.log[i], h.log[i], g.commit[i], n.snapIndex, n.lastApplied - |n.applyQueue|);
  }

  lemma SamePrefixFacts(a: seq<Entry>, b: seq<Entry>, c: int, s: int, q: int)
    requires 0 <= c <= |a| && c <= |b| && a[..c] == b[..c] && 0 <= s <= c
    ensures TermAt(a, s) == TermAt(b, s)
    ensures 0 <= q <= c ==> a[q..c] == b[q..c]
  {
    assert s > 0 ==> a[s - 1] == a[..c][s - 1] == b[..c][s - 1] == b[s - 1];
    assert 0 <= q <= c ==> a[q..c] == a[..c][q..] && b[q..c] == b[..c][q..];
  }

  lemma StoreShape(n: N.Node, a: AppendArgs)
    requires N.WellFormed(n) && n.status != Leader && N.AppendOk(a) && n.snapIndex <= a.prevIndex <= N.LastIndex(n)
    requires n.disk.state == N.PersistentOf(n)
    ensures var m := N.StoreEntries(n, a);
            && m.logs == N.Merge(n.logs, n.snapIndex, a.prevIndex, a.entries).0
            && m.disk.state == N.PersistentOf(m)
  {
  }

  /** The compacted merge is the tail of the full adoption. */
  lemma StoreAdopts(g: History, i: Id, n: N.Node, t: int, a: AppendArgs, p: seq<Entry>)
    requires DomainOk(g) && i in g.members && LogRel(g, i, n) && N.WellFormed(n) && n.status == Follower
    requires LogOk(g, g.log[i], t) && LogOk(g, p, t) && n.disk.state == N.PersistentOf(n)
    requires 0 <= a.prevIndex && a.prevIndex + |a.entries| <= |p| && N.AppendOk(a)
    requires a.entries == p[a.prevIndex..a.prevIndex + |a.entries|] && a.prevTerm == TermAt(p, a.prevIndex)
    requires N.Matches(n, a.prevIndex, a.prevTerm)
    ensures var m, k := N.StoreEntries(n, a), a.prevIndex + |a.entries|;
            && n.snapIndex <= |Adopt(g.log[i], p[..k])| && m.logs == Adopt(g.log[i], p[..k])[n.snapIndex..]
            && m.disk.state == N.PersistentOf(m)
  {
    N.LastIndexIs(n);
    SameTermSamePrefix(g, g.log[i], t, p, t, a.prevIndex);
    MergeAdopts(g, g.log[i], t, p, t, n.snapIndex, a.prevIndex, a.prevIndex + |a.entries|);
    StoreShape(n, a);
  }

  ghost predicate StoredTail(h: History, i: Id, n: N.Node, m: N.Node)
    requires DomainOk(h) && i in h.members
  {
    0 <= n.snapIndex <= |h.log[i]| && m.logs == h.log[i][n.snapIndex..] && m.disk.state == N.PersistentOf(m)
  }

  ghost predicate KeptCommitted(g: History, h: History, i: Id)
    requires DomainOk(g) && DomainOk(h) && i in g.members && i in h.members
  {
    && 0 <= g.commit[i] <= |h.log[i]| && g.commit[i] <= |g.log[i]|
    && h.log[i][..g.commit[i]] == g.log[i][..g.commit[i]]
  }

  lemma StoreTail(g: History, i: Id, n: N.Node, l: Id, a: AppendArgs, h: History)
    requires Inv(g) && Body(g, i, n) && n.status == Follower && AppendSound(g, l, a) && a.readRound == None
    requires a.term == n.currentTerm && l != i && N.Matches(n, a.prevIndex, a.prevTerm)
    requires Accepted(g, h, i, a.term, a.prevIndex + |a.entries|)
    ensures StoredTail(h, i, n, N.StoreEntries(n, a))
  {
    assert ReignOk(g, a.term) && NodeOk(g, i);
    StoreAdopts(g, i, n, a.term, a, g.reign[a.term].log);
  }

  lemma AcceptedKeeps(g: History, h: History, i: Id, k: int)
    requires Inv(g) && i in g.members && MayAccept(g, i, k) && Accepted(g, h, i, g.term[i], k)
    ensures KeptCommitted(g, h, i)
  {
    assert NodeOk(g, i);
    AcceptKeepsCommitted(g, i, k);
  }

  lemma StoreBody(g: History, i: Id, n: N.Node, a: AppendArgs, h: History)
    requires DomainOk(g) && Body(g, i, n) && n.status == Follower && N.AppendOk(a)
    requires n.snapIndex <= a.prevIndex <= N.LastIndex(n)
    requires Accepted(g, h, i, a.term, a.prevIndex + |a.entries|)
    requires StoredTail(h, i, n, N.StoreEntries(n, a)) && KeptCommitted(g, h, i)
    ensures Body(h, i, N.StoreEntries(n, a))
  {
    NewLogBody(g, i, n, h, N.StoreEntries(n, a));
  }

  lemma StoreOut(g: History, i: Id, n: N.Node, a: AppendArgs, h: History)
    requires DomainOk(g) && Good(g, i, n) && n.status == Follower && DomainOk(h) && Extends(g, h)
    requires N.AppendOk(a) && n.snapIndex <= a.prevIndex <= N.LastIndex(n)
    requires Body(h, i, N.StoreEntries(n, a))
    ensures Good(h, i, N.StoreEntries(n, a))
  {
    var m := N.StoreEntries(n, a);
    FollowerRoles(g, h, i, n, m);
    OutGrows(g, h, i, n.out);
  }

  /** Storing a leader's entries: the log follows the leader's and nothing committed is lost. */
  lemma StoreGood(g: History, i: Id, n: N.Node, l: Id, a: AppendArgs, h: History)
    requires Inv(g) && Good(g, i, n) && n.status == Follower && AppendSound(g, l, a) && a.readRound == None
    requires a.term == n.currentTerm && l != i && N.Matches(n, a.prevIndex, a.prevTerm)
    requires Accepted(g, h, i, a.term, a.prevIndex + |a.entries|) && Extends(g, h)
    ensures Good(h, i, N.StoreEntries(n, a)) && AppendSound(h, l, a)
    ensures h.reign[a.term].log[..a.prevIndex + |a.entries|] <= h.log[i]
    ensures a.prevIndex + |a.entries| <= Acked(h, i, a.term)
  {
    StoreTail(g, i, n, l, a, h);
    AcceptedKeeps(g, h, i, a.prevIndex + |a.entries|);
    StoreBody(g, i, n, a, h);
    StoreOut(g, i, n, a, h);
    RequestGrows(g, h, l, AppendEntries(a));
  }

  lemma StoreStep(g: History, i: Id, n: N.Node, l: Id, a: AppendArgs) returns (h: History)
    requires Inv(g) && Good(g, i, n) && n.status == Follower && AppendSound(g, l, a) && a.readRound == None
    requires a.term == n.currentTerm && l != i && N.Matches(n, a.prevIndex, a.prevTerm)
    ensures Advance(g, h, i) && Good(h, i, N.StoreEntries(n, a)) && AppendSound(h, l, a)
    ensures h.reign[a.term].log[..a.prevIndex + |a.entries|] <= h.log[i]
    ensures a.prevIndex + |a.entries| <= Acked(h, i, a.term)
  {
    h := AcceptStep(g, i, a.prevIndex + |a.entries|);
    StoreGood(g, i, n, l, a, h);
  }

  /** The commit index a leader sends lies within what it sends, so the follower has matched all of it. */
  lemma FollowCommitGood(g: History, i: Id, n: N.Node, l: Id, a: AppendArgs) returns (h: History)
    requires Inv(g) && Good(g, i, n) && n.status == Follower && AppendSound(g, l, a) && a.readRound == None
    requires a.term == n.currentTerm && g.reign[a.term].log[..a.prevIndex + |a.entries|] <= g.log[i]
    ensures Advance(g, h, i) && Good(h, i, N.CommitTo(n, a.leaderCommit)) && h.acked == g.acked
  {
    h := g;
    AdvanceRefl(g, i);
    if a.leaderCommit > n.commitIndex {
      LogFacts(g, i, n);
      var p, k := g.reign[a.term].log, a.prevIndex + |a.entries|;
      assert p[..k][..a.leaderCommit] == p[..a.leaderCommit];
      assert g.log[i][..a.leaderCommit] == p[..a.leaderCommit];
      h := CommitToGood(g, i, n, a.leaderCommit);
    }
  }

  lemma MatchedAppendGood(g: History, i: Id, n: N.Node, l: Id, a: AppendArgs) returns (h: History)
    requires Inv(g) && Good(g, i, n) && n.status == Follower && AppendSound(g, l, a) && a.readRound == None
    requires a.term == n.currentTerm && l != i && N.Matches(n, a.prevIndex, a.prevTerm)
    ensures Advance(g, h, i) && Good(h, i, N.CommitTo(N.StoreEntries(n, a), a.leaderCommit))
    ensures a.prevIndex + |a.entries| <= Acked(h, i, a.term)
  {
    h := StoreStep(g, i, n, l, a);
    var k := FollowCommitGood(h, i, N.StoreEntries(n, a), l, a);
    AdvanceTrans(g, h, k, i);
    h := k;
  }

  lemma FollowAppendGood(g: History, i: Id, n: N.Node, l: Id, a: AppendArgs) returns (h: History)
    requires Inv(g) && Good(g, i, n) && n.status == Follower && AppendSound(g, l, a) && a.readRound == None
    requires a.term == n.currentTerm && l != i
    ensures Advance(g, h, i) && Good(h, i, N.FollowAppend(n, a).0)
    ensures ReplySound(h, i, AppendEntries(a), AppendAnswer(N.FollowAppend(n, a).1))
  {
    h := g;
    AdvanceRefl(g, i);
    if N.Matches(n, a.prevIndex, a.prevTerm) {
      h := MatchedAppendGood(g, i, n, l, a);
    }
  }

  lemma TakeAppendGood(g: History, i: Id, n: N.Node, l: Id, a: AppendArgs) returns (h: History)
    requires Inv(g) && Good(g, i, n) && AppendSound(g, l, a) && a.readRound == None && l != i
    ensures Advance(g, h, i) && Good(h, i, N.TakeAppend(n, a).0)
    ensures ReplySound(h, i, AppendEntries(a), AppendAnswer(N.TakeAppend(n, a).1))
  {
    hide Coherent, LogRel, QueueRel, Roles, OutSound, N.FollowAppend;
    h := SeeTermGood(g, i, n, a.term);
    var n1 := N.SeeTerm(n, a.term);
    if a.term == n1.currentTerm {
      RequestGrows(g, h, l, AppendEntries(a));
      NotLeaderOf(h, i, n1, l, a.term);
      var k := FollowAppendGood(h, i, n1.(status := Follower), l, a);
      AdvanceTrans(g, h, k, i);
      h := k;
    }
  }

  /** Whoever is still in term t is in no quorum of a later term. */
  lemma StillHere(g: History, r: Round, v: Id)
    requires Inv(g) && r in g.rounds && v in g.members && g.term[v] == r.term
    ensures AckFresh(g, r, v)
  {
    assert RoundOk(g, r);
    forall c | c in g.rounds[r].before && c.term > r.term ensures c.term in g.reign && v !in g.reign[c.term].quorum {
      assert Certified(g, c) && ReignOk(g, c.term);
      assert Ballot(v, c.term) in g.vote ==> VoteOk(g, Ballot(v, c.term));
    }
  }

  lemma TakeReadHeartBeatGood(g: History, i: Id, n: N.Node, l: Id, a: AppendArgs) returns (h: History)
    requires Inv(g) && Good(g, i, n) && AppendSound(g, l, a) && a.readRound.Some? && l != i
    ensures Advance(g, h, i) && Good(h, i, N.TakeReadHeartBeat(n, a).0)
    ensures ReplySound(h, i, AppendEntries(a), AppendAnswer(N.TakeReadHeartBeat(n, a).1))
  {
    h := SeeTermGood(g, i, n, a.term);
    var n1 := N.SeeTerm(n, a.term);
    if a.term == n1.currentTerm {
      RequestGrows(g, h, l, AppendEntries(a));
      NotLeaderOf(h, i, n1, l, a.term);
      StillHere(h, Round(a.term, a.readRound.value), i);
    }
  }

  // ---------------------------------------------------------------- snapshots

  /** Reaching the snapshot's last entry with its term means holding all the leader had up to there. */
  lemma SuffixIsPrefix(g: History, i: Id, n: N.Node, a: SnapshotArgs, t: int, p: seq<Entry>)
    requires DomainOk(g) && i in g.members && LogRel(g, i, n) && N.Contiguous(n.logs, n.snapIndex)
    requires LogOk(g, g.log[i], t) && LogOk(g, p, t)
    requires n.snapIndex < a.lastIndex <= |p| && a.lastTerm == TermAt(p, a.lastIndex)
    ensures N.KeepsSuffix(n, a) <==> p[..a.lastIndex] <= g.log[i]
    ensures n.snapIndex <= a.lastIndex && (N.KeepsSuffix(n, a) ==> a.lastIndex <= |g.log[i]|)
  {
    N.LastIndexIs(n);
    if N.KeepsSuffix(n, a) {
      SameTermSamePrefix(g, g.log[i], t, p, t, a.lastIndex);
    }
    assert p[..a.lastIndex] <= g.log[i] ==> g.log[i][a.lastIndex - 1] == p[..a.lastIndex][a.lastIndex - 1];
  }

  ghost predicate InstalledLog(g: History, h: History, i: Id, a: SnapshotArgs, m: N.Node)
    requires DomainOk(g) && DomainOk(h) && i in g.members && i in h.members
  {
    && 0 <= a.lastIndex <= |h.log[i]| && g.commit[i] <= |h.log[i]|
    && m.commitIndex == m.lastApplied == N.Max(g.commit[i], a.lastIndex)
    && m.logs == h.log[i][a.lastIndex..] && a.lastTerm == TermAt(h.log[i], a.lastIndex)
  }

  /** What is left of a log when everything up to s is compacted away, before and after adopting the leader's. */
  lemma AdoptedTail(log: seq<Entry>, p: seq<Entry>, snap: int, s: int)
    requires 0 <= snap <= s <= |p| && snap <= |log|
    ensures s <= |Adopt(log, p[..s])|
    ensures p[..s] <= log ==> Adopt(log, p[..s])[s..] == log[snap..][s - snap..]
    ensures !(p[..s] <= log) ==> Adopt(log, p[..s])[s..] == []
    ensures TermAt(Adopt(log, p[..s]), s) == TermAt(p, s)
  {
    assert Adopt(log, p[..s])[..s] == p[..s];
    assert s > 0 ==> Adopt(log, p[..s])[s - 1] == p[..s][s - 1] == p[s - 1];
  }

  lemma InstallLog(g: History, i: Id, n: N.Node, a: SnapshotArgs, h: History)
    requires DomainOk(g) && i in g.members && LogRel(g, i, n) && N.WellFormed(n)
    requires n.status == Follower && n.snapIndex < a.lastIndex
    requires Accepted(g, h, i, a.term, a.lastIndex) && KeptCommitted(g, h, i)
    requires N.KeepsSuffix(n, a) <==> g.reign[a.term].log[..a.lastIndex] <= g.log[i]
    requires a.lastTerm == TermAt(g.reign[a.term].log, a.lastIndex)
    ensures InstalledLog(g, h, i, a, N.Install(n, a))
  {
    AdoptedTail(g.log[i], g.reign[a.term].log, n.snapIndex, a.lastIndex);
  }

  lemma InstallBody(g: History, i: Id, n: N.Node, a: SnapshotArgs, h: History, k: History)
    requires DomainOk(g) && Body(g, i, n) && n.status == Follower && n.snapIndex < a.lastIndex
    requires Accepted(g, h, i, a.term, a.lastIndex) && InstalledLog(g, h, i, a, N.Install(n, a))
    requires k == MoveCommit(h, i, N.Max(g.commit[i], a.lastIndex)) && DomainOk(k)
    ensures Body(k, i, N.Install(n, a))
  {
    var m := N.Install(n, a);
    assert m.applyQueue[|n.applyQueue|].SnapshotMsg?;
    assert QueueRel(k, i, m);
    assert LogRel(k, i, m);
  }

  lemma SnapshotMsgSound(g: History, t: int, log: seq<Entry>, s: int, data: string)
    requires 1 <= s <= |log| && Settled(g, t, log[..s])
    ensures MsgSound(g, SnapshotMsg(data, s, log[s - 1].term))
  {
    var c :| c in g.commits && SettledBy(g, t, log[..s], c);
    assert log[..s][s - 1] == log[s - 1];
    assert CommittedEntry(g, log[s - 1].term, s, c);
  }

  /** Where the commit point lands is committed: either it was before, or the leader's snapshot says so. */
  lemma InstallSettled(g: History, i: Id, l: Id, a: SnapshotArgs, h: History)
    requires Inv(h) && i in g.members && DomainOk(g) && SnapshotSound(h, l, a) && a.term == g.term[i]
    requires Accepted(g, h, i, a.term, a.lastIndex)
    requires N.Max(g.commit[i], a.lastIndex) <= |h.log[i]|
    ensures Settled(h, h.term[i], h.log[i][..N.Max(g.commit[i], a.lastIndex)])
  {
    assert NodeOk(h, i);
    assert h.log[i][..a.lastIndex] == h.reign[a.term].log[..a.lastIndex];
  }

  lemma InstallFacts(g: History, i: Id, n: N.Node, l: Id, a: SnapshotArgs)
    requires Inv(g) && Body(g, i, n) && SnapshotSound(g, l, a) && a.term == n.currentTerm
    requires n.snapIndex < a.lastIndex
    ensures N.KeepsSuffix(n, a) <==> g.reign[a.term].log[..a.lastIndex] <= g.log[i]
    ensures N.KeepsSuffix(n, a) ==> a.lastIndex <= |g.log[i]|
  {
    assert NodeOk(g, i) && ReignOk(g, a.term);
    SuffixIsPrefix(g, i, n, a, a.term, g.reign[a.term].log);
  }

  lemma InstallCommit(g: History, i: Id, l: Id, a: SnapshotArgs, h: History) returns (k: History)
    requires DomainOk(g) && Inv(h) && i in g.members && SnapshotSound(h, l, a) && a.term == g.term[i]
    requires Accepted(g, h, i, a.term, a.lastIndex) && N.Max(g.commit[i], a.lastIndex) <= |h.log[i]|
    ensures k == MoveCommit(h, i, N.Max(g.commit[i], a.lastIndex)) && Advance(h, k, i) && SnapshotSound(k, l, a)
  {
    var m := N.Max(g.commit[i], a.lastIndex);
    InstallSettled(g, i, l, a, h);
    k := MoveCommit(h, i, m);
    MoveCommitAdvances(h, i, m);
    RequestGrows(h, k, l, InstallSnapshot(a));
  }

  lemma InstallAccept(g: History, i: Id, n: N.Node, l: Id, a: SnapshotArgs) returns (h: History)
    requires Inv(g) && Body(g, i, n) && n.status == Follower && SnapshotSound(g, l, a)
    requires a.term == n.currentTerm && l != i && n.snapIndex < a.lastIndex
    ensures Advance(g, h, i) && Accepted(g, h, i, a.term, a.lastIndex) && SnapshotSound(h, l, a)
    ensures InstalledLog(g, h, i, a, N.Install(n, a))
  {
    InstallFacts(g, i, n, l, a);
    h := AcceptStep(g, i, a.lastIndex);
    AcceptedKeeps(g, h, i, a.lastIndex);
    InstallLog(g, i, n, a, h);
    RequestGrows(g, h, l, InstallSnapshot(a));
  }

  lemma InstallStep(g: History, i: Id, n: N.Node, l: Id, a: SnapshotArgs) returns (k: History)
    requires Inv(g) && Body(g, i, n) && n.status == Follower && SnapshotSound(g, l, a)
    requires a.term == n.currentTerm && l != i && n.snapIndex < a.lastIndex
    ensures Advance(g, k, i) && Body(k, i, N.Install(n, a)) && SnapshotSound(k, l, a)
  {
    var h := InstallAccept(g, i, n, l, a);
    k := InstallCommit(g, i, l, a, h);
    AdvanceTrans(g, h, k, i);
    InstallBody(g, i, n, a, h, k);
  }

  lemma InstallGood(g: History, i: Id, n: N.Node, l: Id, a: SnapshotArgs) returns (h: History)
    requires Inv(g) && Good(g, i, n) && n.status == Follower && SnapshotSound(g, l, a)
    requires a.term == n.currentTerm && l != i && n.snapIndex < a.lastIndex
    ensures Advance(g, h, i) && Good(h, i, N.Install(n, a))
  {
    h := InstallStep(g, i, n, l, a);
    InstallOut(g, i, n, l, a, h);
  }

  lemma InstallOut(g: History, i: Id, n: N.Node, l: Id, a: SnapshotArgs, h: History)
    requires DomainOk(g) && Good(g, i, n) && n.status == Follower && n.snapIndex < a.lastIndex
    requires DomainOk(h) && Extends(g, h) && SnapshotSound(h, l, a) && Body(h, i, N.Install(n, a))
    ensures Good(h, i, N.Install(n, a))
  {
    FollowerRoles(g, h, i, n, N.Install(n, a));
    OutGrows(g, h, i, n.out);
    SnapshotMsgSound(h, a.term, h.reign[a.term].log, a.lastIndex, a.data);
    OutPush(h, i, n.out, Apply(SnapshotMsg(a.data, a.lastIndex, a.lastTerm)));
  }

  lemma TakeSnapshotGood(g: History, i: Id, n: N.Node, l: Id, a: SnapshotArgs) returns (h: History)
    requires Inv(g) && Good(g, i, n) && SnapshotSound(g, l, a) && l != i
    ensures Advance(g, h, i) && Good(h, i, N.TakeSnapshot(n, a).0)
  {
    hide Coherent, LogRel, QueueRel, Roles, OutSound, N.Install;
    h := SeeTermGood(g, i, n, a.term);
    var n1 := N.SeeTerm(n, a.term);
    if a.term == n1.currentTerm {
      RequestGrows(g, h, l, InstallSnapshot(a));
      NotLeaderOf(h, i, n1, l, a.term);
      var n2 := n1.(status := Follower);
      if a.lastIndex > n2.snapIndex {
        var k := InstallGood(h, i, n2, l, a);
        AdvanceTrans(g, h, k, i);
        h := k;
      }
    }
  }

  lemma CompactLog(g: History, i: Id, n: N.Node, snapshotIndex: int, data: string)
    requires DomainOk(g) && i in g.members && LogRel(g, i, n) && N.WellFormed(n) && n.commitIndex <= N.LastIndex(n)
    ensures LogRel(g, i, N.DoSnapshot(n, snapshotIndex, data))
  {
    if n.snapIndex < snapshotIndex <= n.commitIndex {
      N.LastIndexIs(n);
      TailOf(g.log[i], n.snapIndex, snapshotIndex);
    }
  }

  lemma CompactBody(g: History, i: Id, n: N.Node, snapshotIndex: int, data: string)
    requires DomainOk(g) && Body(g, i, n) && n.commitIndex <= N.LastIndex(n)
    ensures Body(g, i, N.DoSnapshot(n, snapshotIndex, data))
  {
    CompactLog(g, i, n, snapshotIndex, data);
    assert n.lastApplied == n.commitIndex;
    hide LogRel;
    assert QueueRel(g, i, N.DoSnapshot(n, snapshotIndex, data));
  }

  /** Compaction moves only the snapshot point: the full log, and all it means, stays. */
  lemma DoSnapshotGood(g: History, i: Id, n: N.Node, snapshotIndex: int, data: string)
    requires DomainOk(g) && Good(g, i, n) && n.commitIndex <= N.LastIndex(n)
    ensures Good(g, i, N.DoSnapshot(n, snapshotIndex, data))
  {
    CompactBody(g, i, n, snapshotIndex, data);
    CompactRoles(g, i, n, N.DoSnapshot(n, snapshotIndex, data));
  }

  lemma CompactRoles(g: History, i: Id, n: N.Node, m: N.Node)
    requires DomainOk(g) && i in g.members && N.PeersOk(n) && Roles(g, i, n) && N.PeersOk(m)
    requires m == n.(logs := m.logs, snapIndex := m.snapIndex, snapTerm := m.snapTerm, lastApplied := m.lastApplied,
                     disk := m.disk)
    ensures Roles(g, i, m)
  {
  }

  /** A restart loses the commit point down to the snapshot point and everything volatile, nothing else. */
  lemma BootGood(g: History, i: Id, n: N.Node) returns (h: History)
    requires Inv(g) && Good(g, i, n)
    ensures Advance(g, h, i) && Good(h, i, N.Boot(n.id, n.peers, n.disk))
  {
    h := MoveCommit(g, i, n.snapIndex);
    assert NodeOk(g, i);
    SettledPrefix(g, g.term[i], g.log[i][..g.commit[i]], n.snapIndex);
    assert g.log[i][..g.commit[i]][..n.snapIndex] == g.log[i][..n.snapIndex];
    MoveCommitAdvances(g, i, n.snapIndex);
    BootBody(g, i, n, h);
  }

  lemma BootBody(g: History, i: Id, n: N.Node, h: History)
    requires DomainOk(g) && Body(g, i, n) && h == MoveCommit(g, i, n.snapIndex) && DomainOk(h)
    ensures Good(h, i, N.Boot(n.id, n.peers, n.disk))
  {
    var m := N.Boot(n.id, n.peers, n.disk);
    assert n.disk.state == N.PersistentOf(n);
    assert LogRel(h, i, m) && QueueRel(h, i, m) && N.WellFormed(m);
  }

  // ---------------------------------------------------------------- answers to the leader

  /** Only the view of the peers and the open round changed, and what they claim is checked anew. */
  lemma RolesProgress(g: History, i: Id, n: N.Node, m: N.Node)
    requires DomainOk(g) && i in g.members && N.PeersOk(n) && N.PeersOk(m) && Roles(g, i, n)
    requires m == n.(nextIndex := m.nextIndex, matchIndex := m.matchIndex, activeRead := m.activeRead,
                     readPending := m.readPending, out := m.out)
    requires ReadRel(g, i, m) && forall p | p in m.peers :: n.status == Leader ==> Accounted(g, m, p)
    ensures Roles(g, i, m)
  {
  }

  lemma ProgressGood(g: History, i: Id, n: N.Node, m: N.Node)
    requires DomainOk(g) && Holds(g, i, n) && N.WellFormed(m) && SameBody(n, m)
    requires m == n.(nextIndex := m.nextIndex, matchIndex := m.matchIndex, activeRead := m.activeRead,
                     readPending := m.readPending, out := m.out)
    requires ReadRel(g, i, m) && forall p | p in m.peers :: n.status == Leader ==> Accounted(g, m, p)
    ensures Holds(g, i, m)
  {
    BodyKept(g, i, n, m);
    RolesProgress(g, i, n, m);
  }

  lemma HeartBeatSound(g: History, i: Id, n: N.Node, p: Id, round: nat)
    requires DomainOk(g) && N.WellFormed(n) && IdentityOk(g, i, n) && Roles(g, i, n) && OutSound(g, i, n.out)
    requires p in n.peers && N.HeartBeatSafe(n, p) && n.currentTerm == g.term[i] && N.LastIndex(n) == |g.log[i]|
    ensures OutSound(g, i, N.ScheduleHeartBeat(n, p, round).out)
  {
    if n.status == Leader && n.activeRead.Some? && n.activeRead.value.number == round && !n.inFlight[p] {
      OutPush(g, i, n.out, Send(p, AppendEntries(N.BuildReadHeartBeat(n, p, round))));
    }
  }

  lemma HeartBeatGood(g: History, i: Id, n: N.Node, p: Id, round: nat)
    requires DomainOk(g) && Good(g, i, n) && p in n.peers && N.HeartBeatSafe(n, p)
    ensures Good(g, i, N.ScheduleHeartBeat(n, p, round))
  {
    N.LastIndexIs(n);
    HeartBeatSound(g, i, n, p, round);
    SendingKept(g, i, n, N.ScheduleHeartBeat(n, p, round));
  }

  lemma TryHeartBeatGood(g: History, i: Id, n: N.Node, p: Id)
    requires DomainOk(g) && Good(g, i, n) && p in n.peers && N.HeartBeatSafe(n, p)
    ensures Good(g, i, N.TryReadHeartBeat(n, p))
  {
    hide QueueRel, VoteRel, OutSound;
    SendingKept(g, i, n, N.TryReadHeartBeat(n, p));
    if p in n.readPending && n.readPending[p] != 0 {
      var n1 := n.(readPending := n.readPending[p := 0]);
      SendingKept(g, i, n, n1);
      N.LastIndexIs(n1);
      HeartBeatSound(g, i, n1, p, n.readPending[p]);
    }
  }

  lemma ContinueGood(g: History, i: Id, n: N.Node, p: Id, retry: bool)
    requires Inv(g) && Good(g, i, n) && p in n.peers && n.status == Leader
    ensures Good(g, i, N.Continue(n, p, retry))
  {
    if retry || n.pending[p] || n.nextIndex[p] <= N.LastIndex(n) {
      ScheduleGood(g, i, n, p);
    } else {
      TryHeartBeatGood(g, i, n, p);
    }
  }

  ghost predicate AllAccounted(g: History, n: N.Node)
    requires N.PeersOk(n)
  {
    forall p | p in n.peers :: Accounted(g, n, p)
  }

  lemma PeersGood(g: History, i: Id, n: N.Node, m: N.Node)
    requires DomainOk(g) && Good(g, i, n) && N.WellFormed(m) && N.SameButProgress(n, m) && AllAccounted(g, m)
    ensures Good(g, i, m)
  {
    BodyKept(g, i, n, m);
  }

  lemma CreditAccounts(g: History, i: Id, n: N.Node, p: Id, index: int)
    requires DomainOk(g) && i in g.members && N.WellFormed(n) && LeaderRel(g, i, n) && p in n.peers
    requires n.status == Leader && index <= N.LastIndex(n)
    requires index <= n.commitIndex || index <= Acked(g, p, n.currentTerm)
    ensures AllAccounted(g, N.Credit(n, p, index))
  {
    forall q | q in n.peers ensures Accounted(g, N.Credit(n, p, index), q) {
      assert Accounted(g, n, q);
    }
  }

  /** A peer stored entries up to index in this term, or index is committed anyway. */
  lemma CreditGood(g: History, i: Id, n: N.Node, p: Id, index: int)
    requires DomainOk(g) && Good(g, i, n) && p in n.peers && n.status == Leader && index <= N.LastIndex(n)
    requires index <= n.commitIndex || index <= Acked(g, p, n.currentTerm)
    ensures Good(g, i, N.Credit(n, p, index))
  {
    CreditAccounts(g, i, n, p, index);
    PeersGood(g, i, n, N.Credit(n, p, index));
  }

  lemma NextAccounts(g: History, i: Id, n: N.Node, p: Id, suggestion: int)
    requires DomainOk(g) && i in g.members && N.WellFormed(n) && LeaderRel(g, i, n) && p in n.peers
    requires n.status == Leader
    ensures AllAccounted(g, N.TryNext(n, p, suggestion))
  {
    forall q | q in n.peers ensures Accounted(g, N.TryNext(n, p, suggestion), q) {
      assert Accounted(g, n, q);
    }
  }

  lemma NextGood(g: History, i: Id, n: N.Node, p: Id, suggestion: int)
    requires DomainOk(g) && Good(g, i, n) && p in n.peers && n.status == Leader
    ensures Good(g, i, N.TryNext(n, p, suggestion))
  {
    NextAccounts(g, i, n, p, suggestion);
    PeersGood(g, i, n, N.TryNext(n, p, suggestion));
  }

  lemma OnMatchGood(g: History, i: Id, n: N.Node, p: Id, index: int) returns (h: History)
    requires Inv(g) && Good(g, i, n) && p in n.peers && n.status == Leader && index <= N.LastIndex(n)
    requires index <= Acked(g, p, n.currentTerm)
    ensures Advance(g, h, i) && Good(h, i, N.OnMatch(n, p, index))
  {
    CreditGood(g, i, n, p, index);
    h := UpdateCommitGood(g, i, N.Credit(n, p, index));
    ContinueGood(h, i, N.UpdateCommit(N.Credit(n, p, index)), p, false);
  }

  /** A quorum acknowledged the round: whatever was committed before it opened lies at or below its index. */
  lemma QuorumConfirms(g: History, i: Id, n: N.Node, a: N.ReadRound)
    requires Inv(g) && Holds(g, i, n) && n.activeRead == Some(a) && |a.acks| >= N.Quorum(n)
    ensures Confirmed(g, i, Round(a.term, a.number), a.readIndex)
  {
    var r := Round(a.term, a.number);
    assert RoundOk(g, r);
    ClusterSize(g, i, n);
    forall c | c in g.rounds[r].before ensures c.index <= a.readIndex {
      if c.term > a.term {
        assert Certified(g, c) && ReignOk(g, c.term);
        var v := QuorumsMeet(g.members, a.acks, g.reign[c.term].quorum);
        assert false;
      }
    }
  }

  lemma ConfirmedAnswers(g: History, i: Id, a: N.ReadRound)
    requires Confirmed(g, i, Round(a.term, a.number), a.readIndex)
    ensures OutSound(g, i, N.Answers(a, true))
  {
    forall j | 0 <= j < |a.callbacks| ensures OutputSound(g, i, N.Answers(a, true)[j]) {
      assert N.Answers(a, true)[j] == Answer(a.callbacks[j], true, a.number, a.readIndex);
    }
  }

  lemma CompleteReadGood(g: History, i: Id, n: N.Node, a: N.ReadRound)
    requires Inv(g) && Good(g, i, n) && n.activeRead == Some(a) && |a.acks| >= N.Quorum(n)
    ensures Good(g, i, N.CloseRead(n, true))
  {
    QuorumConfirms(g, i, n, a);
    ConfirmedAnswers(g, i, a);
    OutAppend(g, i, n.out, N.Answers(a, true));
    ClosedHolds(g, i, n);
  }

  lemma ClosedHolds(g: History, i: Id, n: N.Node)
    requires DomainOk(g) && Holds(g, i, n)
    ensures Holds(g, i, N.CloseRead(n, true))
  {
    var m := N.CloseRead(n, true);
    forall p | p in m.peers ensures n.status == Leader ==> Accounted(g, m, p) {
      assert n.status == Leader ==> Accounted(g, n, p);
    }
    ProgressGood(g, i, n, m);
  }

  lemma AckGood(g: History, i: Id, n: N.Node, p: Id, a: N.ReadRound)
    requires DomainOk(g) && Good(g, i, n) && p in g.members && n.activeRead == Some(a)
    requires Round(a.term, a.number) in g.rounds && AckFresh(g, Round(a.term, a.number), p)
    ensures Good(g, i, n.(activeRead := Some(a.(acks := a.acks + {p}))))
  {
    ReadGood(g, i, n, a.(acks := a.acks + {p}));
  }

  lemma ReadGood(g: History, i: Id, n: N.Node, a: N.ReadRound)
    requires DomainOk(g) && Good(g, i, n) && ReadRel(g, i, n.(activeRead := Some(a)))
    ensures Good(g, i, n.(activeRead := Some(a)))
  {
    var m := n.(activeRead := Some(a));
    forall p | p in m.peers ensures n.status == Leader ==> Accounted(g, m, p) {
      assert n.status == Leader ==> Accounted(g, n, p);
    }
    ProgressGood(g, i, n, m);
  }

  lemma OnReadAckGood(g: History, i: Id, n: N.Node, p: Id, number: nat)
    requires Inv(g) && Good(g, i, n) && p in n.peers && n.status == Leader
    requires Round(n.currentTerm, number) in g.rounds && AckFresh(g, Round(n.currentTerm, number), p)
    ensures Good(g, i, N.OnReadAck(n, p, number))
  {
    hide Coherent, LogRel, QueueRel, OutSound, VoteRel, N.Continue;
    match n.activeRead
    case None =>
    case Some(a) =>
      if a.term == n.currentTerm && a.number == number {
        var a1 := a.(acks := a.acks + {p});
        var n1 := n.(activeRead := Some(a1));
        AckGood(g, i, n, p, a);
        if |a1.acks| >= N.Quorum(n) {
          CompleteReadGood(g, i, n1, a1);
          ContinueGood(g, i, N.CloseRead(n1, true), p, false);
        } else {
          ContinueGood(g, i, n1, p, false);
        }
      }
  }

  lemma RetryGood(g: History, i: Id, n: N.Node, p: Id, suggestion: int)
    requires Inv(g) && Good(g, i, n) && p in n.peers && n.status == Leader
    ensures Good(g, i, N.Retry(n, p, suggestion))
  {
    NextGood(g, i, n, p, suggestion);
    ContinueGood(g, i, N.TryNext(n, p, suggestion), p, true);
  }

  /** What a successful answer to a leader's request of term t vouches for. */
  ghost predicate Vouches(g: History, p: Id, t: int, round: Option<nat>, index: int) {
    match round
    case None => index <= Acked(g, p, t)
    case Some(r) => r > 0 && Round(t, r) in g.rounds && AckFresh(g, Round(t, r), p)
  }

  lemma OnAppendAnswerGood(g: History, i: Id, n: N.Node, p: Id, a: AppendArgs, r: AppendReply) returns (h: History)
    requires Inv(g) && Good(g, i, n) && p in n.peers && n.status == Leader
    requires a.prevIndex + |a.entries| <= N.LastIndex(n)
    requires r.success ==> Vouches(g, p, n.currentTerm, r.readRound, a.prevIndex + |a.entries|)
    ensures Advance(g, h, i) && Good(h, i, N.OnAppendAnswer(n, p, a, r))
  {
    hide N.Retry, N.OnReadAck, N.OnMatch, Coherent, LogRel, QueueRel, VoteRel, Roles, OutSound;
    h := g;
    AdvanceRefl(g, i);
    if !r.success {
      RetryGood(g, i, n, p, r.updateNextIndex);
    } else if r.readRound.Some? {
      OnReadAckGood(g, i, n, p, r.readRound.value);
    } else {
      h := OnMatchGood(g, i, n, p, a.prevIndex + |a.entries|);
    }
  }

  lemma IdleGood(g: History, i: Id, n: N.Node, p: Id)
    requires DomainOk(g) && Good(g, i, n) && p in n.peers
    ensures Good(g, i, N.Idle(n, p))
  {
    SendingKept(g, i, n, N.Idle(n, p));
  }

  lemma AppendAnswerGood(g: History, i: Id, n: N.Node, p: Id, a: AppendArgs, r: AppendReply) returns (h: History)
    requires Inv(g) && Good(g, i, n) && p in n.peers && n.status == Leader
    requires a.prevIndex + |a.entries| <= N.LastIndex(n)
    requires r.term == n.currentTerm && r.success ==>
      Vouches(g, p, n.currentTerm, r.readRound, a.prevIndex + |a.entries|)
    ensures Advance(g, h, i) && Good(h, i, N.AppendAnswered(n, p, a, r))
  {
    hide Coherent, LogRel, QueueRel, Roles, OutSound, N.OnAppendAnswer, Vouches;
    h := g;
    AdvanceRefl(g, i);
    if r.term > n.currentTerm {
      h := BecomeFollowerGood(g, i, n, r.term);
    } else if r.term == n.currentTerm {
      h := OnAppendAnswerGood(g, i, n, p, a, r);
    }
  }

  lemma OnAppendReplyGood(g: History, i: Id, n: N.Node, p: Id, a: AppendArgs, reply: Option<AppendReply>)
    returns (h: History)
    requires Inv(g) && Good(g, i, n) && p in n.peers && N.OwnRequest(n, a)
    requires reply.Some? && reply.value.success ==>
      Vouches(g, p, a.term, reply.value.readRound, a.prevIndex + |a.entries|)
    ensures Advance(g, h, i) && Good(h, i, N.OnAppendReply(n, p, a, reply))
  {
    hide N.AppendAnswered, Coherent, LogRel, QueueRel, Roles, OutSound;
    h := g;
    AdvanceRefl(g, i);
    if n.status == Leader && a.term == n.currentTerm {
      IdleGood(g, i, n, p);
      if reply.Some? {
        h := AppendAnswerGood(g, i, N.Idle(n, p), p, a, reply.value);
      }
    }
  }

  lemma ResumeGood(g: History, i: Id, n: N.Node, p: Id)
    requires Inv(g) && Good(g, i, n) && p in n.peers && n.status == Leader
    ensures Good(g, i, N.Resume(n, p))
  {
    ScheduleGood(g, i, n, p);
  }

  lemma OnSnapshotAnswerGood(g: History, i: Id, n: N.Node, p: Id)
    requires Inv(g) && Good(g, i, n) && p in n.peers && n.status == Leader
    ensures Good(g, i, N.OnSnapshotAnswer(n, p))
  {
    N.LastIndexIs(n);
    CreditGood(g, i, n, p, n.snapIndex);
    ResumeGood(g, i, N.Credit(n, p, n.snapIndex), p);
  }

  lemma SnapshotAnswerGood(g: History, i: Id, n: N.Node, p: Id, r: SnapshotReply) returns (h: History)
    requires Inv(g) && Good(g, i, n) && p in n.peers && n.status == Leader
    ensures Advance(g, h, i) && Good(h, i, N.SnapshotAnswered(n, p, r))
  {
    h := g;
    AdvanceRefl(g, i);
    if r.term > n.currentTerm {
      h := BecomeFollowerGood(g, i, n, r.term);
    } else if r.term == n.currentTerm {
      OnSnapshotAnswerGood(g, i, n, p);
    }
  }

  lemma OnSnapshotReplyGood(g: History, i: Id, n: N.Node, p: Id, term: int, reply: Option<SnapshotReply>)
    returns (h: History)
    requires Inv(g) && Good(g, i, n) && p in n.peers
    ensures Advance(g, h, i) && Good(h, i, N.OnSnapshotReply(n, p, term, reply))
  {
    hide N.SnapshotAnswered, Coherent, LogRel, QueueRel, Roles, OutSound;
    h := g;
    AdvanceRefl(g, i);
    if n.status == Leader && term == n.currentTerm {
      IdleGood(g, i, n, p);
      if reply.Some? {
        h := SnapshotAnswerGood(g, i, N.Idle(n, p), p, reply.value);
      }
    }
  }

  // ---------------------------------------------------------------- calls from the state machine

  lemma StartedGood(g: History, i: Id, n: N.Node, e: Entry)
    requires DomainOk(g) && Good(g, i, n) && OutputSound(g, i, Started(e))
    ensures Good(g, i, n.(out := n.out + [Started(e)]))
  {
    hide LogRel, QueueRel, VoteRel, Roles;
    OutPush(g, i, n.out, Started(e));
    SendingKept(g, i, n, n.(out := n.out + [Started(e)]));
  }

  lemma AppendedInReign(g: History, i: Id, n: N.Node, op: Op)
    requires DomainOk(g) && Holds(g, i, n) && Rules(g, i)
    ensures OutputSound(LeaderAppend(g, i, op), i, Started(Entry(n.currentTerm, N.LastIndex(n) + 1, op)))
  {
    N.LastIndexIs(n);
  }

  lemma StartGood(g: History, i: Id, n: N.Node, op: Op) returns (h: History)
    requires Inv(g) && Good(g, i, n)
    ensures Advance(g, h, i) && Good(h, i, N.Start(n, op))
  {
    h := g;
    AdvanceRefl(g, i);
    if n.status == Leader {
      h := LeadStartGood(g, i, n, op);
    }
  }

  lemma LeadStartGood(g: History, i: Id, n: N.Node, op: Op) returns (h: History)
    requires Inv(g) && Good(g, i, n) && n.status == Leader
    ensures Advance(g, h, i) && Good(h, i, N.Start(n, op))
  {
    hide Coherent, QueueRel, VoteRel, LogRel, OutSound, N.UpdateCommit, N.ScheduleAllReplication;
    var d := AppendEntryGood(g, i, n, op);
    var n1 := N.AppendEntry(n, op);
    AppendedInReign(g, i, n, op);
    h := UpdateCommitGood(d, i, n1);
    ScheduleAllGood(h, i, N.UpdateCommit(n1));
    AdvanceTrans(g, d, h, i);
    var e := Entry(n.currentTerm, N.LastIndex(n) + 1, op);
    OutputGrows(d, h, i, Started(e));
    StartedGood(h, i, N.ScheduleAllReplication(N.UpdateCommit(n1)), e);
  }

  /** What the leader's commit point covers when it opens a round. */
  lemma CoversEarlier(g: History, i: Id, n: N.Node)
    requires Inv(g) && Holds(g, i, n) && n.status == Leader && n.currentTermCommitted
    ensures forall c | c in g.commits && c.term <= n.currentTerm :: c.index <= n.commitIndex
  {
    var t := n.currentTerm;
    forall c | c in g.commits && c.term <= t ensures c.index <= n.commitIndex {
      if c.term < t {
        assert Certified(g, c) && ReignOk(g, t);
        LeaderCompleteness(g, c, t);
      }
    }
  }

  lemma OpenedRoles(g: History, i: Id, n: N.Node, round: nat, a: N.ReadRound, h: History)
    requires DomainOk(g) && Holds(g, i, n) && N.OpensRound(n) && 0 < round && n.readIndexRound < round
    requires a.number == round && a.term == n.currentTerm && a.readIndex == n.commitIndex && a.acks == {i}
    requires h == Open(g, Round(n.currentTerm, round), n.commitIndex) && DomainOk(h)
    requires AckFresh(h, Round(n.currentTerm, round), i)
    ensures Holds(h, i, n.(activeRead := Some(a), readIndexRound := round))
  {
    var m := n.(activeRead := Some(a), readIndexRound := round);
    BodyGrows(g, h, i, n);
    BodyKept(h, i, n, m);
    forall p | p in m.peers ensures Accounted(h, m, p) {
      assert Accounted(g, n, p);
      assert Acked(h, p, n.currentTerm) == Acked(g, p, n.currentTerm);
    }
  }

  lemma OpenGood(g: History, i: Id, n: N.Node, round: nat, callback: nat) returns (h: History)
    requires Inv(g) && Good(g, i, n) && N.OpensRound(n) && 0 < round && n.readIndexRound < round
    ensures Evolves(g, h, i) && h == Open(g, Round(n.currentTerm, round), n.commitIndex)
    ensures Round(n.currentTerm, round) !in g.rounds
    ensures Good(h, i, N.OpenRound(n, round, callback))
  {
    var r := Round(n.currentTerm, round);
    CoversEarlier(g, i, n);
    h := Open(g, r, n.commitIndex);
    OpenAdvances(g, i, r, n.commitIndex);
    StillHere(h, r, i);
    var m := N.OpenRound(n, round, callback);
    OpenedRoles(g, i, n, round, m.activeRead.value, h);
    OutGrows(g, h, i, n.out);
    OutPush(h, i, n.out, Opened(n.currentTerm, round, n.commitIndex));
    SendingKept(h, i, n.(activeRead := m.activeRead, readIndexRound := round), m);
  }

  lemma {:induction false} HeartBeatFirstGood(g: History, i: Id, n: N.Node, round: nat, k: nat)
    requires Inv(g) && Good(g, i, n) && k <= |n.peers| && forall p | p in n.peers :: N.HeartBeatSafe(n, p)
    ensures Good(g, i, N.HeartBeatFirst(n, round, k))
  {
    if k > 0 {
      HeartBeatFirstGood(g, i, n, round, k - 1);
      HeartBeatGood(g, i, N.HeartBeatFirst(n, round, k - 1), n.peers[k - 1], round);
    }
  }

  lemma RefusedGood(g: History, i: Id, n: N.Node, callback: nat, code: int)
    requires DomainOk(g) && Good(g, i, n)
    ensures Good(g, i, n.(out := n.out + [Answer(callback, false, code, code)]))
  {
    OutPush(g, i, n.out, Answer(callback, false, code, code));
    SendingKept(g, i, n, n.(out := n.out + [Answer(callback, false, code, code)]));
  }

  lemma JoinedGood(g: History, i: Id, n: N.Node, callback: nat)
    requires DomainOk(g) && Good(g, i, n) && n.activeRead.Some?
    ensures Good(g, i, N.JoinRound(n, callback))
  {
    ReadGood(g, i, n, n.activeRead.value.(callbacks := n.activeRead.value.callbacks + [callback]));
  }

  /** What a read does to the histories: it opens a round or leaves them alone. */
  ghost predicate OpensOnly(g: History, n: N.Node, round: nat, h: History) {
    if N.OpensRound(n)
    then Round(n.currentTerm, round) !in g.rounds && h == Open(g, Round(n.currentTerm, round), n.commitIndex)
    else h == g
  }

  lemma ReadIndexGood(g: History, i: Id, n: N.Node, round: nat, callback: nat) returns (h: History)
    requires Inv(g) && Good(g, i, n) && n.readIndexRound < round && N.ReadSafe(n)
    ensures Evolves(g, h, i) && Good(h, i, N.ReadIndex(n, round, callback)) && OpensOnly(g, n, round, h)
  {
    h := g;
    AdvanceRefl(g, i);
    if n.status != Leader {
      RefusedGood(g, i, n, callback, -1);
    } else if !n.currentTermCommitted {
      RefusedGood(g, i, n, callback, -2);
    } else if n.activeRead.Some? {
      JoinedGood(g, i, n, callback);
    } else {
      h := OpenGood(g, i, n, round, callback);
      HeartBeatFirstGood(h, i, N.OpenRound(n, round, callback), round, |n.peers|);
    }
  }
}
