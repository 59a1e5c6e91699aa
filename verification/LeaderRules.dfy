/** What candidates and leaders must do: ask everyone, count, take office, send every peer what it lacks, and commit. */
module LeaderRules {
  import opened Types
  import opened RaftRules
  import N = Node

  // ---------------------------------------------------------------- sending

  /** o sends peer p what it lacks: the snapshot if its next entry is compacted away, else all entries from that on. */
  predicate Lacking(n: N.Node, p: Id, o: Output)
    requires p in n.nextIndex
  {
    && o.Send? && o.to == p
    && var next := n.nextIndex[p];
       if next <= n.snapIndex then
         o.request == InstallSnapshot(SnapshotArgs(n.currentTerm, n.id, n.snapIndex, n.snapTerm, n.disk.snapshot))
       else
         && o.request.AppendEntries? && o.request.append.readRound == None
         && o.request.append.term == n.currentTerm && o.request.append.leader == n.id
         && o.request.append.leaderCommit == n.commitIndex
         && o.request.append.prevIndex == next - 1 && HasAt(n, next - 1, o.request.append.prevTerm)
         && o.request.append.entries == n.logs[next - n.snapIndex - 1..]
  }

  lemma RequestRule(n: N.Node, p: Id)
    requires N.WellFormed(n) && n.status == Leader && p in n.peers
    ensures p in n.nextIndex && Lacking(n, p, Send(p, N.RequestFor(n, p)))
  {
    LogIs(n);
  }

  /** To an idle peer a leader sends what it lacks; for a busy one it remembers to. */
  lemma SendRule(n: N.Node, p: Id)
    requires N.WellFormed(n) && n.status == Leader && p in n.peers
    ensures var r := N.ScheduleReplication(n, p);
            && N.SameButSending(n, r) && r.readPending == n.readPending && p in r.inFlight && p in r.pending
            && r.inFlight == n.inFlight[p := true]
            && if n.inFlight[p] then r.pending == n.pending[p := true] && r.out == n.out
               else r.pending == n.pending[p := false]
                    && |r.out| == |n.out| + 1 && n.out <= r.out && Lacking(n, p, r.out[|n.out|])
  {
    hide Lacking, N.RequestFor, N.Contiguous, N.Distinct;
    RequestRule(n, p);
  }

  /** In r peer p is busy, and unless it was so in n, it has been sent what it lacked. */
  predicate SentTo(n: N.Node, r: N.Node, p: Id) {
    && p in n.inFlight && p in n.nextIndex && p in r.inFlight && p in r.pending && n.out <= r.out && r.inFlight[p]
    && if n.inFlight[p] then r.pending[p] else exists q :: |n.out| <= q < |r.out| && Lacking(n, p, r.out[q])
  }

  predicate Untried(n: N.Node, r: N.Node, p: Id) {
    p in n.inFlight && p in r.inFlight && r.inFlight[p] == n.inFlight[p]
  }

  lemma SameLacking(n: N.Node, m: N.Node, p: Id, o: Output)
    requires N.SameButSending(n, m) && p in n.nextIndex
    ensures Lacking(m, p, o) == Lacking(n, p, o)
  {
  }

  lemma SentKept(n: N.Node, m: N.Node, r: N.Node, p: Id)
    requires SentTo(n, m, p) && m.out <= r.out && p in r.inFlight && p in r.pending
    requires r.inFlight[p] == m.inFlight[p] && r.pending[p] == m.pending[p]
    ensures SentTo(n, r, p)
  {
    if !n.inFlight[p] {
      var q :| |n.out| <= q < |m.out| && Lacking(n, p, m.out[q]);
      assert r.out[q] == m.out[q];
    }
  }

  lemma SentNow(n: N.Node, m: N.Node, p: Id)
    requires N.WellFormed(n) && N.WellFormed(m) && m.status == Leader && p in n.peers && p in m.peers
    requires N.SameButSending(n, m) && Untried(n, m, p) && n.out <= m.out
    ensures SentTo(n, N.ScheduleReplication(m, p), p) && N.SameButSending(n, N.ScheduleReplication(m, p))
    ensures m.out <= N.ScheduleReplication(m, p).out
  {
    SendRule(m, p);
    var r := N.ScheduleReplication(m, p);
    hide N.ScheduleReplication, N.WellFormed;
    if !n.inFlight[p] { SameLacking(n, m, p, r.out[|m.out|]); }
  }

  lemma OthersKept(m: N.Node, p: Id, p': Id)
    requires N.WellFormed(m) && m.status == Leader && p in m.peers && p' in m.peers && p' != p
    ensures var r := N.ScheduleReplication(m, p);
            && p' in r.inFlight && p' in r.pending && p' in m.inFlight && p' in m.pending
            && r.inFlight[p'] == m.inFlight[p'] && r.pending[p'] == m.pending[p'] && m.out <= r.out
  {
    SendRule(m, p);
  }

  /** What sending must have done for the first k peers. */
  predicate ServedFirst(n: N.Node, r: N.Node, k: nat)
    requires k <= |n.peers|
  {
    && n.out <= r.out && N.SameButSending(n, r)
    && (forall x | 0 <= x < k :: SentTo(n, r, n.peers[x]))
    && (forall x | k <= x < |n.peers| :: Untried(n, r, n.peers[x]))
  }

  lemma ServedMore(n: N.Node, m: N.Node, k: nat)
    requires N.WellFormed(n) && N.WellFormed(m) && n.status == Leader && k < |n.peers| && ServedFirst(n, m, k)
    ensures ServedFirst(n, N.ScheduleReplication(m, n.peers[k]), k + 1)
  {
    var p := n.peers[k];
    var r := N.ScheduleReplication(m, p);
    SentNow(n, m, p);
    hide N.ScheduleReplication, SentTo;
    forall x | 0 <= x < k ensures SentTo(n, r, n.peers[x]) {
      OthersKept(m, p, n.peers[x]);
      SentKept(n, m, r, n.peers[x]);
    }
    forall x | k + 1 <= x < |n.peers| ensures Untried(n, r, n.peers[x]) {
      OthersKept(m, p, n.peers[x]);
    }
  }

  lemma ServedNone(n: N.Node)
    requires N.WellFormed(n)
    ensures ServedFirst(n, n, 0)
  {
  }

  lemma {:induction false} SendFirstRule(n: N.Node, k: nat)
    requires N.WellFormed(n) && n.status == Leader && k <= |n.peers|
    ensures ServedFirst(n, N.ScheduleFirst(n, k), k)
  {
    hide N.ScheduleReplication, SentTo, N.WellFormed, ServedFirst;
    if k == 0 {
      ServedNone(n);
    } else {
      SendFirstRule(n, k - 1);
      ServedMore(n, N.ScheduleFirst(n, k - 1), k - 1);
    }
  }

  /** Every peer that was idle has been sent what it lacks, and every other will be. */
  lemma SendAllRule(n: N.Node)
    requires N.WellFormed(n) && n.status == Leader
    ensures N.SameButSending(n, N.ScheduleAllReplication(n))
    ensures forall p | p in n.peers :: SentTo(n, N.ScheduleAllReplication(n), p)
  {
    SendFirstRule(n, |n.peers|);
    hide SentTo, N.ScheduleFirst;
    forall p | p in n.peers ensures SentTo(n, N.ScheduleAllReplication(n), p) {
      var x :| 0 <= x < |n.peers| && n.peers[x] == p;
    }
  }

  // ---------------------------------------------------------------- elections

  /** What a candidate says of itself. */
  function Claim(n: N.Node, term: int): VoteArgs {
    VoteArgs(term, n.id, Last(n), LastTermOf(n))
  }

  /** out ends with this request to every peer, in order. */
  predicate AsksAll(n: N.Node, out: seq<Output>, request: Request) {
    && |out| == |n.out| + |n.peers| && n.out <= out
    && forall x | 0 <= x < |n.peers| :: out[|n.out| + x] == Send(n.peers[x], request)
  }

  /** n opens an election: the next term, a vote for itself, and a request to everyone. */
  predicate Stands(n: N.Node, r: N.Node) {
    && r.currentTerm == n.currentTerm + 1 && r.votedFor == n.id && r.electionTerm == r.currentTerm
    && r.status == Candidate && r.votesGranted == 1 && r.logs == n.logs && r.snapIndex == n.snapIndex
    && AsksAll(n, r.out, RequestVote(Claim(n, n.currentTerm + 1)))
  }

  /** Who has cast a majority of votes, in a cluster of n and its peers. */
  predicate Majority(n: N.Node, votes: int) {
    2 * votes > |n.peers| + 1
  }

  lemma CampaignRule(n: N.Node)
    requires N.WellFormed(n)
    ensures Stands(n, N.Canvass(N.Campaign(n)))
  {
    LogIs(n);
  }

  /** An election begins as it should; with no one to ask it is won at once. */
  lemma ElectionRule(n: N.Node, junk: int)
    requires N.WellFormed(n) && n.status != Leader
    ensures if n.peers == [] then N.BeginElection(n, junk) == N.BecomeLeader(N.Canvass(N.Campaign(n)), junk)
            else Stands(n, N.BeginElection(n, junk))
  {
    CampaignRule(n);
    hide N.BecomeLeader, Stands;
  }

  /** A pre-vote asks everyone about the next term and enters none. */
  lemma PreElectionRule(n: N.Node, junk: int)
    requires N.WellFormed(n) && n.status != Leader && n.peers != []
    ensures var r := N.BeginPreVote(n, junk);
            && r.currentTerm == n.currentTerm && r.votedFor == n.votedFor && r.logs == n.logs
            && r.status == PreCandidate && r.preVotesGranted == 1 && r.preVoteTerm == n.currentTerm + 1
            && r.preVoteRound == n.preVoteRound + 1
            && AsksAll(n, r.out, PreVote(Claim(n, n.currentTerm + 1), n.preVoteRound + 1))
  {
    LogIs(n);
  }

  /** The answer that completes a majority of pre-votes starts the election; short of that it is counted. */
  lemma PreVoteCountRule(n: N.Node, v: VoteReply, junk: int)
    requires N.WellFormed(n) && n.status == PreCandidate && v.term <= n.currentTerm
    ensures forall term, round | term != n.preVoteTerm || round != n.preVoteRound || !v.granted ::
              N.OnPreVoteReply(n, term, round, Some(v), junk) == n
    ensures v.granted ==>
      var m := n.(preVotesGranted := n.preVotesGranted + 1);
      N.OnPreVoteReply(n, n.preVoteTerm, n.preVoteRound, Some(v), junk) ==
      if Majority(n, m.preVotesGranted) then N.BeginElection(m, junk) else m
  {
    hide N.BeginElection;
  }

  /** The answer that completes a majority of votes makes the leader; short of that it is counted. */
  lemma VoteCountRule(n: N.Node, v: VoteReply, junk: int)
    requires N.WellFormed(n) && n.status == Candidate && n.electionTerm == n.currentTerm && v.term <= n.currentTerm
    ensures forall term | term != n.currentTerm || !v.granted :: N.OnVoteReply(n, term, Some(v), junk) == n
    ensures v.granted ==>
      var m := n.(votesGranted := n.votesGranted + 1);
      N.OnVoteReply(n, n.currentTerm, Some(v), junk) ==
      if Majority(n, m.votesGranted) then N.BecomeLeader(m, junk) else m
  {
    hide N.BecomeLeader;
  }

  /** A leader in office, before it sends anything: an entry of its own term appended, nothing known of any peer. */
  predicate InOffice(n: N.Node, junk: int, m: N.Node) {
    && m.status == Leader && m.currentTerm == n.currentTerm && m.peers == n.peers && m.id == n.id
    && m.logs == n.logs + [Entry(n.currentTerm, Last(n) + 1, Noop(junk))] && m.snapIndex == n.snapIndex
    && m.commitIndex == n.commitIndex && m.out == n.out + [Elected(n.currentTerm)]
    && forall p | p in n.peers ::
         && p in m.nextIndex && p in m.matchIndex && p in m.inFlight && p in m.pending
         && m.nextIndex[p] == Last(n) + 1 && m.matchIndex[p] == 0 && !m.inFlight[p] && !m.pending[p]
  }

  /** Taking office: that, and the entry is sent to everyone. */
  lemma OfficeRule(n: N.Node, junk: int) returns (m: N.Node)
    requires N.WellFormed(n)
    ensures InOffice(n, junk, m) && N.SameButSending(m, N.BecomeLeader(n, junk))
    ensures forall p | p in n.peers :: SentTo(m, N.BecomeLeader(n, junk), p)
  {
    LogIs(n);
    var t := N.TakeOffice(n);
    m := N.AppendEntry(t, Noop(junk));
    SendAllRule(m);
    hide N.ScheduleAllReplication, SentTo, N.WellFormed;
  }

  // ---------------------------------------------------------------- committing

  /** The peers that are credited with index x. */
  ghost function Backers(n: N.Node, x: int): set<Id> {
    set p | p in n.peers && p in n.matchIndex && n.matchIndex[p] >= x
  }

  ghost function Among(n: N.Node, x: int, k: nat): set<Id>
    requires k <= |n.peers|
  {
    set p | p in n.peers[..k] && p in n.matchIndex && n.matchIndex[p] >= x
  }

  lemma AmongNext(n: N.Node, x: int, k: nat)
    requires N.PeersOk(n) && 0 < k <= |n.peers|
    ensures n.peers[k - 1] !in Among(n, x, k - 1) && n.peers[k - 1] in n.matchIndex
    ensures Among(n, x, k) == Among(n, x, k - 1) + if n.matchIndex[n.peers[k - 1]] >= x then {n.peers[k - 1]} else {}
  {
    var p := n.peers[k - 1];
    assert p in n.peers && n.peers[..k] == n.peers[..k - 1] + [p];
    var more := if n.matchIndex[p] >= x then {p} else {};
    forall q ensures q in Among(n, x, k) <==> q in Among(n, x, k - 1) + more {
      assert q in n.peers[..k] <==> q in n.peers[..k - 1] || q == p;
    }
  }

  lemma {:induction false} MatchedCounts(n: N.Node, x: int, k: nat)
    requires N.PeersOk(n) && k <= |n.peers|
    ensures |Among(n, x, k)| == N.Matched(n, x, k)
  {
    if k > 0 {
      MatchedCounts(n, x, k - 1);
      AmongNext(n, x, k);
      hide Among, N.PeersOk;
    } else {
      assert Among(n, x, 0) == {};
    }
  }

  lemma BackersCount(n: N.Node, x: int)
    requires N.PeersOk(n)
    ensures |Backers(n, x)| == N.Matched(n, x, |n.peers|)
  {
    MatchedCounts(n, x, |n.peers|);
    assert n.peers[..|n.peers|] == n.peers;
    assert Among(n, x, |n.peers|) == Backers(n, x);
  }

  /** A majority, the leader included, is credited with x, an entry of the leader's term above the commit index. */
  ghost predicate MayCommit(n: N.Node, x: int) {
    n.commitIndex < x <= Last(n) && n.snapIndex < x && EntryTerm(n, x) == n.currentTerm
    && Majority(n, |Backers(n, x)| + 1)
  }

  lemma CommittableIs(n: N.Node, x: int)
    requires N.WellFormed(n) && n.commitIndex < x <= Last(n)
    ensures N.LastIndex(n) == Last(n) && (N.Committable(n, x) <==> MayCommit(n, x))
  {
    LogIs(n);
    BackersCount(n, x);
  }

  /** The commit index moves to the greatest index that may be committed, and stays if there is none. */
  lemma CommitGreatestRule(n: N.Node)
    requires N.WellFormed(n)
    ensures var r := N.UpdateCommit(n).commitIndex;
            && (r == n.commitIndex || MayCommit(n, r)) && forall x | r < x :: !MayCommit(n, x)
  {
    LogIs(n);
    var r := N.CommitScan(n, N.LastIndex(n));
    if r != n.commitIndex { CommittableIs(n, r); }
    hide MayCommit, N.Committable;
    forall x | r < x ensures !MayCommit(n, x) {
      NotAbove(n, r, x);
    }
  }

  lemma NotAbove(n: N.Node, r: int, x: int)
    requires N.WellFormed(n) && r == N.CommitScan(n, N.LastIndex(n)) && r < x
    ensures !MayCommit(n, x)
  {
    LogIs(n);
    if n.commitIndex < x <= Last(n) { CommittableIs(n, x); }
  }

  // ---------------------------------------------------------------- answers of peers

  /** What is left of a leader's view of peer p when it has heard of a match up to index. */
  predicate HeardOf(n: N.Node, p: Id, index: int, r: N.Node) {
    && p in n.matchIndex && p in r.matchIndex && p in r.nextIndex
    && r.matchIndex[p] == N.Max(n.matchIndex[p], index) && r.nextIndex[p] == r.matchIndex[p] + 1
  }

  /** Only the view of p may differ. */
  predicate OnlyOf(n: N.Node, p: Id, r: N.Node) {
    forall q | q in n.peers && q != p ::
      && q in n.matchIndex && q in r.matchIndex && q in n.nextIndex && q in r.nextIndex
      && r.matchIndex[q] == n.matchIndex[q] && r.nextIndex[q] == n.nextIndex[q]
  }

  lemma CommitKeepsView(n: N.Node)
    requires N.WellFormed(n)
    ensures var r := N.UpdateCommit(n);
            && r.matchIndex == n.matchIndex && r.nextIndex == n.nextIndex && r.inFlight == n.inFlight
            && r.logs == n.logs && r.snapIndex == n.snapIndex && r.status == n.status && r.peers == n.peers
            && r.currentTerm == n.currentTerm && r.activeRead == n.activeRead && r.readPending == n.readPending
            && r.pending == n.pending && r.id == n.id && r.snapTerm == n.snapTerm
  {
  }

  /** After an answer, whatever the peer still lacks is sent at once. */
  lemma ContinueRule(n: N.Node, p: Id, retry: bool)
    requires N.WellFormed(n) && n.status == Leader && p in n.peers && !n.inFlight[p]
    ensures var r := N.Continue(n, p, retry);
            && N.SameButSending(n, r)
            && (retry || n.pending[p] || n.nextIndex[p] <= Last(n) ==>
                  r.inFlight[p] && |r.out| == |n.out| + 1 && Lacking(n, p, r.out[|n.out|]))
  {
    LogIs(n);
    SendRule(n, p);
    hide N.ScheduleReplication;
  }

  /** What an answer of success to a request up to index does to the leader n. */
  ghost predicate TakesMatch(n: N.Node, p: Id, index: int, r: N.Node) {
    && HeardOf(n, p, index, r) && OnlyOf(n, p, r)
    && r.status == Leader && r.currentTerm == n.currentTerm && r.logs == n.logs && n.commitIndex <= r.commitIndex
    && (forall x | r.commitIndex < x :: !MayCommit(r, x))
    && (r.nextIndex[p] <= Last(n) ==> p in r.inFlight && r.inFlight[p])
  }

  lemma MatchPath(n: N.Node, p: Id, request: AppendArgs, a: AppendReply)
    requires N.WellFormed(n) && n.status == Leader && p in n.peers && request.term == n.currentTerm
    requires request.prevIndex + |request.entries| <= N.LastIndex(n)
    requires a.term == n.currentTerm && a.success && a.readRound == None
    ensures N.OnAppendReply(n, p, request, Some(a)) ==
            N.OnMatch(N.Idle(n, p), p, request.prevIndex + |request.entries|)
  {
    hide N.OnMatch, N.WellFormed;
  }

  lemma OnMatchRule(n: N.Node, p: Id, index: int)
    requires N.WellFormed(n) && n.status == Leader && p in n.peers && index <= N.LastIndex(n)
    ensures TakesMatch(n, p, index, N.OnMatch(N.Idle(n, p), p, index))
  {
    var c := N.Credit(N.Idle(n, p), p, index);
    CreditRule(n, p, index);
    MatchedTail(n, c, p, index);
    assert N.OnMatch(N.Idle(n, p), p, index) == N.Continue(N.UpdateCommit(c), p, false);
    hide *;
  }

  lemma MatchedTail(n: N.Node, c: N.Node, p: Id, index: int)
    requires N.WellFormed(c) && c.status == Leader && p in c.peers && !c.inFlight[p]
    requires HeardOf(n, p, index, c) && OnlyOf(n, p, c) && c.currentTerm == n.currentTerm && c.peers == n.peers
    requires c.logs == n.logs && c.snapIndex == n.snapIndex && c.commitIndex == n.commitIndex
    ensures TakesMatch(n, p, index, N.Continue(N.UpdateCommit(c), p, false))
  {
    var u := N.UpdateCommit(c);
    CommitKeepsView(c);
    CommitGreatestRule(c);
    ContinueRule(u, p, false);
    var r := N.Continue(u, p, false);
    NoMore(c, u, r);
    hide N.Continue, N.UpdateCommit, MayCommit, N.WellFormed, Lacking;
  }

  /** A match: the peer is credited with all it was sent, all is committed that may be, and the rest is sent. */
  lemma MatchRule(n: N.Node, p: Id, request: AppendArgs, a: AppendReply)
    requires N.WellFormed(n) && n.status == Leader && p in n.peers && request.term == n.currentTerm
    requires request.prevIndex + |request.entries| <= Last(n)
    requires a.term == n.currentTerm && a.success && a.readRound == None
    ensures N.OwnRequest(n, request)
    ensures TakesMatch(n, p, request.prevIndex + |request.entries|, N.OnAppendReply(n, p, request, Some(a)))
  {
    hide N.OnMatch, N.Idle, TakesMatch, N.OnAppendReply;
    N.LastIndexIs(n);
    MatchPath(n, p, request, a);
    OnMatchRule(n, p, request.prevIndex + |request.entries|);
  }

  lemma CreditRule(n: N.Node, p: Id, index: int)
    requires N.WellFormed(n) && n.status == Leader && p in n.peers && index <= N.LastIndex(n)
    ensures var c := N.Credit(N.Idle(n, p), p, index);
            && HeardOf(n, p, index, c) && OnlyOf(n, p, c) && c.status == Leader && c.currentTerm == n.currentTerm
            && c.logs == n.logs && c.snapIndex == n.snapIndex && c.commitIndex == n.commitIndex && c.peers == n.peers
            && !c.inFlight[p] && c.pending == n.pending && c.readPending == n.readPending
            && c.activeRead == n.activeRead
  {
  }

  /** What may be committed depends on nothing that sending or committing less changes. */
  lemma NoMore(c: N.Node, u: N.Node, r: N.Node)
    requires u.matchIndex == c.matchIndex && u.logs == c.logs && u.snapIndex == c.snapIndex && u.peers == c.peers
    requires u.currentTerm == c.currentTerm && c.commitIndex <= u.commitIndex && N.SameButSending(u, r)
    requires forall x | u.commitIndex < x :: !MayCommit(c, x)
    ensures forall x | r.commitIndex < x :: !MayCommit(r, x)
  {
    forall x | r.commitIndex < x ensures !MayCommit(r, x) {
      assert !MayCommit(c, x);
      SameBackers(c, r, x);
    }
  }

  lemma SameBackers(c: N.Node, r: N.Node, x: int)
    requires r.matchIndex == c.matchIndex && r.peers == c.peers
    ensures Backers(r, x) == Backers(c, x)
  {
    forall q ensures q in Backers(r, x) <==> q in Backers(c, x) {}
  }

  /** The next index after a refusal: the hint, if it is a step back, and otherwise one step back; at least 1. */
  predicate StepsBack(n: N.Node, p: Id, hint: int, next: int)
    requires p in n.nextIndex
  {
    next == if hint == NO_SUGGESTION || n.nextIndex[p] <= hint then N.Max(1, n.nextIndex[p] - 1) else N.Max(1, hint)
  }

  lemma RetryPath(n: N.Node, p: Id, request: AppendArgs, a: AppendReply)
    requires N.WellFormed(n) && n.status == Leader && p in n.peers && request.term == n.currentTerm
    requires request.prevIndex + |request.entries| <= N.LastIndex(n) && a.term == n.currentTerm && !a.success
    ensures N.OnAppendReply(n, p, request, Some(a)) ==
            N.Continue(N.TryNext(N.Idle(n, p), p, a.updateNextIndex), p, true)
  {
    hide N.Continue, N.WellFormed, N.TryNext;
  }

  lemma TryNextRule(n: N.Node, p: Id, hint: int)
    requires N.WellFormed(n) && n.status == Leader && p in n.peers
    ensures var m := N.TryNext(N.Idle(n, p), p, hint);
            && p in m.nextIndex && StepsBack(n, p, hint, m.nextIndex[p]) && m.matchIndex == n.matchIndex
            && m.status == Leader && !m.inFlight[p] && m.commitIndex == n.commitIndex && m.logs == n.logs
            && (forall q | q in n.peers && q != p :: q in m.nextIndex && m.nextIndex[q] == n.nextIndex[q])
  {
    N.LastIndexIs(n);
  }

  /** A refusal: the leader steps back as hinted, credits nothing, and sends again at once. */
  lemma RefusalRule(n: N.Node, p: Id, request: AppendArgs, a: AppendReply)
    requires N.WellFormed(n) && n.status == Leader && p in n.peers && request.term == n.currentTerm
    requires request.prevIndex + |request.entries| <= Last(n) && a.term == n.currentTerm && !a.success
    ensures N.OwnRequest(n, request)
    ensures var r := N.OnAppendReply(n, p, request, Some(a));
            && p in r.nextIndex && StepsBack(n, p, a.updateNextIndex, r.nextIndex[p]) && r.matchIndex == n.matchIndex
            && r.commitIndex == n.commitIndex && r.logs == n.logs && p in r.inFlight && r.inFlight[p]
            && exists q :: 0 <= q < |r.out| && Lacking(r, p, r.out[q])
  {
    N.LastIndexIs(n);
    RetryPath(n, p, request, a);
    var m := N.TryNext(N.Idle(n, p), p, a.updateNextIndex);
    TryNextRule(n, p, a.updateNextIndex);
    ContinueRule(m, p, true);
    var r := N.Continue(m, p, true);
    hide N.Continue, N.TryNext, N.Idle, N.WellFormed;
    SameLacking(m, r, p, r.out[|m.out|]);
  }

  /** A lost answer frees the peer and changes nothing else. */
  lemma LostRule(n: N.Node, p: Id, request: AppendArgs)
    requires N.WellFormed(n) && n.status == Leader && p in n.peers && request.term == n.currentTerm
    requires request.prevIndex + |request.entries| <= Last(n)
    ensures N.OwnRequest(n, request)
    ensures N.OnAppendReply(n, p, request, None) == n.(inFlight := n.inFlight[p := false])
  {
    N.LastIndexIs(n);
  }

  lemma SnapshotPath(n: N.Node, p: Id)
    requires N.WellFormed(n) && n.status == Leader && p in n.peers
    ensures N.OnSnapshotReply(n, p, n.currentTerm, Some(SnapshotReply(n.currentTerm))) ==
            N.Resume(N.Credit(N.Idle(n, p), p, n.snapIndex), p)
  {
    hide N.Resume, N.Credit, N.WellFormed;
  }

  lemma ResumeRule(c: N.Node, p: Id)
    requires N.WellFormed(c) && c.status == Leader && p in c.peers && !c.inFlight[p]
    ensures var r := N.Resume(c, p);
            N.SameButSending(c, r) && (c.nextIndex[p] <= Last(c) ==> p in r.inFlight && r.inFlight[p])
  {
    LogIs(c);
    SendRule(c, p);
    hide N.ScheduleReplication, Lacking;
  }

  /** The answer to a snapshot: credit up to the snapshot point, and what is lacking beyond it is sent. */
  lemma SnapshotAnswerRule(n: N.Node, p: Id)
    requires N.WellFormed(n) && n.status == Leader && p in n.peers
    ensures var r := N.OnSnapshotReply(n, p, n.currentTerm, Some(SnapshotReply(n.currentTerm)));
            && HeardOf(n, p, n.snapIndex, r) && OnlyOf(n, p, r) && r.status == Leader
            && r.commitIndex == n.commitIndex && r.logs == n.logs
            && (r.nextIndex[p] <= Last(n) ==> p in r.inFlight && r.inFlight[p])
  {
    LogIs(n);
    SnapshotPath(n, p);
    CreditRule(n, p, n.snapIndex);
    ResumeRule(N.Credit(N.Idle(n, p), p, n.snapIndex), p);
    hide N.Credit, N.Resume, N.Idle, N.OnSnapshotReply;
  }

  /** An answer of a later term makes a follower of that term, whatever else it says. */
  ghost predicate Yields(n: N.Node, t: int, r: N.Node) {
    && r.currentTerm == t && r.votedFor == NO_VOTE && r.status == Follower && r.logs == n.logs
    && r.snapIndex == n.snapIndex && r.commitIndex == n.commitIndex
  }

  lemma LaterVoteRule(n: N.Node, term: int, round: int, v: VoteReply, junk: int)
    requires N.WellFormed(n) && n.currentTerm < v.term
    ensures Yields(n, v.term, N.OnPreVoteReply(n, term, round, Some(v), junk))
    ensures Yields(n, v.term, N.OnVoteReply(n, term, Some(v), junk))
  {
  }

  lemma LaterAnswerRule(n: N.Node, p: Id, request: AppendArgs, a: AppendReply, s: SnapshotReply)
    requires N.WellFormed(n) && n.status == Leader && p in n.peers && request.term == n.currentTerm
    requires request.prevIndex + |request.entries| <= Last(n) && n.currentTerm < a.term && n.currentTerm < s.term
    ensures N.OwnRequest(n, request)
    ensures Yields(n, a.term, N.OnAppendReply(n, p, request, Some(a)))
    ensures Yields(n, s.term, N.OnSnapshotReply(n, p, n.currentTerm, Some(s)))
  {
    N.LastIndexIs(n);
  }

  /** A leader that has lost its majority follows in its own term and keeps its vote, its log and nothing in the air. */
  lemma StepDownRule(n: N.Node)
    ensures var r := N.StepDown(n);
            && r.status == Follower && r.currentTerm == n.currentTerm && r.votedFor == n.votedFor && r.logs == n.logs
            && r.commitIndex == n.commitIndex && r.activeRead == None && !r.currentTermCommitted
            && (forall p | p in r.inFlight :: !r.inFlight[p]) && (forall p | p in r.pending :: !r.pending[p])
  {
  }

  // ---------------------------------------------------------------- read rounds

  /** o asks peer p whether n still leads, for this round. */
  predicate Beat(n: N.Node, p: Id, round: nat, o: Output)
    requires p in n.nextIndex
  {
    && o.Send? && o.to == p && o.request.AppendEntries?
    && o.request.append.readRound == Some(round) && o.request.append.entries == []
    && o.request.append.term == n.currentTerm && o.request.append.leader == n.id
    && o.request.append.leaderCommit == n.commitIndex && o.request.append.prevIndex == n.nextIndex[p] - 1
    && HasAt(n, n.nextIndex[p] - 1, o.request.append.prevTerm)
  }

  /** In r peer p is busy; if it was so in n, the question about the round is owed to it, and otherwise it was asked. */
  predicate BeatTo(n: N.Node, r: N.Node, p: Id, round: nat) {
    && p in n.inFlight && p in n.nextIndex && p in r.inFlight && r.inFlight[p]
    && if n.inFlight[p] then p in r.readPending && r.readPending[p] == round
       else exists q :: 0 <= q < |r.out| && Beat(n, p, round, r.out[q])
  }

  lemma BeatRule(n: N.Node, p: Id, round: nat)
    requires N.WellFormed(n) && n.status == Leader && p in n.peers && N.HeartBeatSafe(n, p)
    requires n.activeRead.Some? && n.activeRead.value.number == round
    ensures var r := N.ScheduleHeartBeat(n, p, round);
            && N.SameButSending(n, r) && r.inFlight == n.inFlight[p := true] && n.out <= r.out
            && if n.inFlight[p] then r.readPending == n.readPending[p := round] && r.out == n.out
               else r.readPending == n.readPending && |r.out| == |n.out| + 1 && Beat(n, p, round, r.out[|n.out|])
  {
    LogIs(n);
  }

  /** What opening a round must have done for the first k peers. */
  predicate Polled(n: N.Node, r: N.Node, round: nat, k: nat)
    requires k <= |n.peers|
  {
    && N.SameButSending(n, r)
    && (forall x | 0 <= x < k :: BeatTo(n, r, n.peers[x], round))
    && (forall x | k <= x < |n.peers| :: Untried(n, r, n.peers[x]))
  }

  lemma QuestionKept(n: N.Node, m: N.Node, r: N.Node, p: Id, round: nat)
    requires BeatTo(n, m, p, round) && m.out <= r.out && p in r.inFlight && r.inFlight[p]
    requires p in m.readPending ==> p in r.readPending && r.readPending[p] == m.readPending[p]
    ensures BeatTo(n, r, p, round)
  {
    if !n.inFlight[p] {
      var q :| 0 <= q < |m.out| && Beat(n, p, round, m.out[q]);
      assert r.out[q] == m.out[q];
    }
  }

  lemma BeatNow(n: N.Node, m: N.Node, p: Id, round: nat)
    requires N.WellFormed(n) && N.WellFormed(m) && m.status == Leader && p in n.peers && p in m.peers
    requires N.HeartBeatSafe(m, p) && m.activeRead.Some? && m.activeRead.value.number == round
    requires N.SameButSending(n, m) && Untried(n, m, p)
    ensures BeatTo(n, N.ScheduleHeartBeat(m, p, round), p, round)
    ensures N.SameButSending(n, N.ScheduleHeartBeat(m, p, round))
  {
    BeatRule(m, p, round);
    var r := N.ScheduleHeartBeat(m, p, round);
    hide N.ScheduleHeartBeat, N.WellFormed;
    if !n.inFlight[p] { assert Beat(n, p, round, r.out[|m.out|]); }
  }

  lemma PolledMore(n: N.Node, m: N.Node, round: nat, k: nat)
    requires N.WellFormed(n) && N.WellFormed(m) && n.status == Leader && k < |n.peers| && Polled(n, m, round, k)
    requires N.HeartBeatSafe(m, n.peers[k]) && n.activeRead.Some? && n.activeRead.value.number == round
    ensures Polled(n, N.ScheduleHeartBeat(m, n.peers[k], round), round, k + 1)
  {
    var p := n.peers[k];
    var r := N.ScheduleHeartBeat(m, p, round);
    BeatNow(n, m, p, round);
    BeatRule(m, p, round);
    hide N.ScheduleHeartBeat, BeatTo, Beat;
    forall x | 0 <= x < k ensures BeatTo(n, r, n.peers[x], round) {
      assert n.peers[x] in m.peers && BeatTo(n, m, n.peers[x], round);
      BeatHas(n, m, n.peers[x], round);
      QuestionKept(n, m, r, n.peers[x], round);
    }
    forall x | k + 1 <= x < |n.peers| ensures Untried(n, r, n.peers[x]) {
      assert n.peers[x] != p && Untried(n, m, n.peers[x]);
    }
  }

  lemma BeatHas(n: N.Node, m: N.Node, p: Id, round: nat)
    requires BeatTo(n, m, p, round)
    ensures p in m.inFlight && m.inFlight[p]
  {
  }

  lemma PolledNone(n: N.Node, round: nat)
    requires N.WellFormed(n)
    ensures Polled(n, n, round, 0)
  {
  }

  lemma {:induction false} PollFirstRule(n: N.Node, round: nat, k: nat)
    requires N.WellFormed(n) && n.status == Leader && k <= |n.peers|
    requires forall p | p in n.peers :: N.HeartBeatSafe(n, p)
    requires n.activeRead.Some? && n.activeRead.value.number == round
    ensures Polled(n, N.HeartBeatFirst(n, round, k), round, k)
  {
    hide N.ScheduleHeartBeat, N.WellFormed, Polled, N.HeartBeatSafe;
    if k == 0 {
      PolledNone(n, round);
    } else {
      PollFirstRule(n, round, k - 1);
      PolledMore(n, N.HeartBeatFirst(n, round, k - 1), round, k - 1);
    }
  }

  /** A read that opens a round has every idle peer asked at once, and owes it to the busy ones. */
  lemma RoundRule(n: N.Node, round: nat, callback: nat)
    requires N.WellFormed(n) && n.readIndexRound < round && N.ReadSafe(n) && N.OpensRound(n)
    ensures forall p | p in n.peers :: BeatTo(n, N.ReadIndex(n, round, callback), p, round)
  {
    var m := N.OpenRound(n, round, callback);
    assert forall p | p in n.peers :: N.HeartBeatSafe(m, p) == N.HeartBeatSafe(n, p);
    PollFirstRule(m, round, |m.peers|);
    var r := N.ReadIndex(n, round, callback);
    assert r == N.HeartBeatFirst(m, round, |m.peers|);
    SameView(n, round, callback);
    hide N.HeartBeatFirst, N.ReadIndex, N.OpenRound, N.WellFormed, N.HeartBeatSafe, BeatTo;
    forall p | p in n.peers ensures BeatTo(n, r, p, round) {
      var x :| 0 <= x < |n.peers| && n.peers[x] == p;
      SameBeat(n, m, r, p, round);
    }
  }

  lemma SameView(n: N.Node, round: nat, callback: nat)
    requires N.WellFormed(n)
    ensures var m := N.OpenRound(n, round, callback);
            n == m.(activeRead := n.activeRead, readIndexRound := n.readIndexRound, out := n.out)
  {
  }

  lemma SameBeat(n: N.Node, m: N.Node, r: N.Node, p: Id, round: nat)
    requires n == m.(activeRead := n.activeRead, readIndexRound := n.readIndexRound, out := n.out)
    requires BeatTo(m, r, p, round)
    ensures BeatTo(n, r, p, round)
  {
    if !n.inFlight[p] {
      var q :| 0 <= q < |r.out| && Beat(m, p, round, r.out[q]);
      assert Beat(n, p, round, r.out[q]);
    }
  }

  /** Does n owe peer p the question about its open round? */
  predicate OwesBeat(n: N.Node, p: Id) {
    && p in n.readPending && n.readPending[p] != 0
    && n.activeRead.Some? && n.activeRead.value.number == n.readPending[p]
  }

  /** A round that is closed is owed to nobody; what is owed to others stays. */
  lemma ForgetRule(n: N.Node, ok: bool, p: Id)
    requires n.activeRead.Some? && p in n.readPending && n.activeRead.value.number != 0
    ensures var r := N.CloseRead(n, ok);
            && r.activeRead == None && p in r.readPending && r.readPending[p] != n.activeRead.value.number
            && (n.readPending[p] != n.activeRead.value.number ==> r.readPending[p] == n.readPending[p])
  {
  }

  /** What is owed is paid as soon as an answer leaves nothing else to send. */
  lemma OwedBeatRule(n: N.Node, p: Id)
    requires N.WellFormed(n) && n.status == Leader && p in n.peers && !n.inFlight[p] && OwesBeat(n, p)
    requires !n.pending[p] && Last(n) < n.nextIndex[p]
    ensures var r := N.Continue(n, p, false);
            && r.inFlight == n.inFlight[p := true] && r.readPending == n.readPending[p := 0]
            && |r.out| == |n.out| + 1 && Beat(n, p, n.readPending[p], r.out[|n.out|])
  {
    LogIs(n);
  }

  /** In r peer p has been asked about the round that n owed it. */
  predicate PaysBeat(n: N.Node, p: Id, r: N.Node) {
    && p in n.readPending && p in r.nextIndex && p in r.readPending && r.readPending[p] == 0
    && exists q :: 0 <= q < |r.out| && Beat(r, p, n.readPending[p], r.out[q])
  }

  /** After a match that leaves nothing to send to it, peer p is asked at last. */
  lemma OwedMatchRule(n: N.Node, p: Id, request: AppendArgs, a: AppendReply)
    requires N.WellFormed(n) && n.status == Leader && p in n.peers && request.term == n.currentTerm
    requires request.prevIndex + |request.entries| == Last(n) && OwesBeat(n, p) && !n.pending[p]
    requires a.term == n.currentTerm && a.success && a.readRound == None
    ensures N.OwnRequest(n, request)
    ensures PaysBeat(n, p, N.OnAppendReply(n, p, request, Some(a)))
  {
    hide PaysBeat, N.OnAppendReply, N.OnMatch, N.Idle;
    N.LastIndexIs(n);
    MatchPath(n, p, request, a);
    OnMatchPays(n, p, Last(n));
  }

  lemma OnMatchPays(n: N.Node, p: Id, index: int)
    requires N.WellFormed(n) && n.status == Leader && p in n.peers && OwesBeat(n, p) && !n.pending[p]
    requires index == Last(n) == N.LastIndex(n)
    ensures PaysBeat(n, p, N.OnMatch(N.Idle(n, p), p, index))
  {
    var c := N.Credit(N.Idle(n, p), p, index);
    CreditRule(n, p, index);
    assert N.OnMatch(N.Idle(n, p), p, index) == N.Continue(N.UpdateCommit(c), p, false);
    hide N.Continue, N.UpdateCommit, N.Credit, N.OnMatch, Beat, N.Idle;
    OwedTail(c, p);
  }

  lemma OwedTail(c: N.Node, p: Id)
    requires N.WellFormed(c) && c.status == Leader && p in c.peers && !c.inFlight[p] && OwesBeat(c, p)
    requires !c.pending[p] && Last(c) < c.nextIndex[p]
    ensures PaysBeat(c, p, N.Continue(N.UpdateCommit(c), p, false))
  {
    CommitKeepsView(c);
    var u := N.UpdateCommit(c);
    OwedBeatRule(u, p);
    var r := N.Continue(u, p, false);
    hide N.Continue, N.UpdateCommit, N.WellFormed;
    assert Beat(r, p, c.readPending[p], r.out[|u.out|]);
  }

  // ---------------------------------------------------------------- calls

  /** start appends the command to the log of the leader, reports its place, and sends it to everyone. */
  lemma StartRule(n: N.Node, op: Op)
    requires N.WellFormed(n) && n.status == Leader
    ensures var r, e := N.Start(n, op), Entry(n.currentTerm, Last(n) + 1, op);
            && r.logs == n.logs + [e] && r.status == Leader && r.currentTerm == n.currentTerm
            && r.out != [] && r.out[|r.out| - 1] == Started(e)
            && (forall x | r.commitIndex < x :: !MayCommit(r, x))
            && (forall p | p in n.peers :: p in r.inFlight && r.inFlight[p] && p in n.inFlight && p in r.pending
                                          && (n.inFlight[p] ==> r.pending[p]))
  {
    LogIs(n);
    var m := N.AppendEntry(n, op);
    var r := N.Start(n, op);
    var v := N.ScheduleAllReplication(N.UpdateCommit(m));
    assert r == v.(out := v.out + [Started(Entry(n.currentTerm, Last(n) + 1, op))]);
    hide N.Start, N.UpdateCommit, N.ScheduleAllReplication, MayCommit, N.WellFormed, SentTo;
    StartedTail(m);
    OutDoesNotMatter(v, r);
  }

  /** An appended entry is committed as far as may be, and sent. */
  lemma StartedTail(m: N.Node)
    requires N.WellFormed(m) && m.status == Leader
    ensures var r := N.ScheduleAllReplication(N.UpdateCommit(m));
            && r.logs == m.logs && r.status == Leader && r.currentTerm == m.currentTerm
            && (forall x | r.commitIndex < x :: !MayCommit(r, x))
            && (forall p | p in m.peers :: p in r.inFlight && r.inFlight[p] && p in m.inFlight && p in r.pending
                                          && (m.inFlight[p] ==> r.pending[p]))
  {
    var u := N.UpdateCommit(m);
    CommitKeepsView(m);
    CommitGreatestRule(m);
    SendAllRule(u);
    var v := N.ScheduleAllReplication(u);
    NoMore(m, u, v);
    AllBusy(u, v);
    hide N.UpdateCommit, N.ScheduleAllReplication, MayCommit, N.WellFormed, SentTo, Backers;
  }

  lemma AllBusy(n: N.Node, r: N.Node)
    requires forall p | p in n.peers :: SentTo(n, r, p)
    ensures forall p | p in n.peers :: p in n.inFlight && p in r.inFlight && p in r.pending && r.inFlight[p]
                                       && (n.inFlight[p] ==> r.pending[p])
  {
  }

  lemma OutDoesNotMatter(n: N.Node, r: N.Node)
    requires r == n.(out := r.out) && forall x | n.commitIndex < x :: !MayCommit(n, x)
    ensures forall x | r.commitIndex < x :: !MayCommit(r, x)
  {
    forall x | r.commitIndex < x ensures !MayCommit(r, x) {
      assert !MayCommit(n, x);
      SameBackers(n, r, x);
    }
  }

  lemma NotLeaderRule(n: N.Node, op: Op)
    requires N.WellFormed(n) && n.status != Leader
    ensures N.Start(n, op) == n
  {
  }
}
