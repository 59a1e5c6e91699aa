/**
 * The rules of Figure 2 of the extended Raft paper, with those for pre-vote and ReadIndex, as the handlers follow them:
 * what a node must do, and not only what it may.
 */
module RaftRules {
  import opened Types
  import N = Node

  // ---------------------------------------------------------------- a node's log

  /** The last index of the log, compacted part included. */
  function Last(n: N.Node): int {
    n.snapIndex + |n.logs|
  }

  function LastTermOf(n: N.Node): int {
    if n.logs == [] then n.snapTerm else n.logs[|n.logs| - 1].term
  }

  /** The term of the entry at index x. */
  function EntryTerm(n: N.Node, x: int): int
    requires n.snapIndex < x <= Last(n)
  {
    n.logs[x - n.snapIndex - 1].term
  }

  /** The log reaches index x, no lower than the snapshot point, and has this term there. */
  predicate HasAt(n: N.Node, x: int, term: int) {
    n.snapIndex <= x <= Last(n) && (if x == n.snapIndex then n.snapTerm else EntryTerm(n, x)) == term
  }

  /** Is a log that ends at (lastIndex, lastTerm) at least as up to date as n's? */
  predicate AtLeast(n: N.Node, lastIndex: int, lastTerm: int) {
    lastTerm > LastTermOf(n) || (lastTerm == LastTermOf(n) && lastIndex >= Last(n))
  }

  lemma LogIs(n: N.Node)
    requires N.Contiguous(n.logs, n.snapIndex)
    ensures N.LastIndex(n) == Last(n) && N.LastTerm(n) == LastTermOf(n)
    ensures forall x, term :: N.Matches(n, x, term) <==> HasAt(n, x, term)
    ensures forall i, t :: N.WhetherVoteFor(n, i, t) <==> AtLeast(n, i, t)
  {
    N.LastIndexIs(n);
  }

  /** Terms only go up; a later one makes a follower that has not voted. */
  lemma TermRule(n: N.Node, t: int)
    ensures var r := N.SeeTerm(n, t);
            && r.logs == n.logs && r.snapIndex == n.snapIndex && r.snapTerm == n.snapTerm
            && r.commitIndex == n.commitIndex && r.peers == n.peers && r.id == n.id
            && if t > n.currentTerm then r.currentTerm == t && r.votedFor == NO_VOTE && r.status == Follower else r == n
  {
  }

  // ---------------------------------------------------------------- votes

  /** Is the vote of the candidate's term still free, or the candidate's already? */
  predicate FreeFor(n: N.Node, a: VoteArgs) {
    n.currentTerm < a.term || n.votedFor == NO_VOTE || n.votedFor == a.candidate
  }

  /**
   * RequestVote: granted exactly if the term is not past, no other candidate has the vote of that term, and the
   * candidate's log is at least as up to date.  The answer has the node's term.
   */
  lemma VoteRule(n: N.Node, a: VoteArgs)
    requires N.WellFormed(n)
    ensures var (r, reply) := N.TakeVote(n, a);
            && reply.term == r.currentTerm == N.Max(n.currentTerm, a.term)
            && (reply.granted <==> n.currentTerm <= a.term && FreeFor(n, a) && AtLeast(n, a.lastIndex, a.lastTerm))
            && reply.state == (if n.currentTerm > a.term then EXPIRED else if !FreeFor(n, a) then VOTED
                               else if !AtLeast(n, a.lastIndex, a.lastTerm) then LOG_OUTDATED else NORMAL)
            && r.votedFor == (if reply.granted then a.candidate
                              else if n.currentTerm < a.term then NO_VOTE else n.votedFor)
            && r.status == (if n.currentTerm < a.term then Follower else n.status) && r.logs == n.logs
  {
    TermRule(n, a.term);
    var m := N.SeeTerm(n, a.term);
    SameTest(n, m, a.lastIndex, a.lastTerm);
    hide N.SeeTerm, N.WellFormed, N.WhetherVoteFor, AtLeast;
  }

  lemma SameTest(n: N.Node, m: N.Node, lastIndex: int, lastTerm: int)
    requires N.Contiguous(n.logs, n.snapIndex)
    requires m.logs == n.logs && m.snapIndex == n.snapIndex && m.snapTerm == n.snapTerm
    ensures N.WhetherVoteFor(m, lastIndex, lastTerm) <==> AtLeast(n, lastIndex, lastTerm)
  {
    N.LastIndexIs(n);
  }

  lemma PreVoteRule(n: N.Node, a: VoteArgs, recentLeader: bool)
    requires N.WellFormed(n)
    ensures var reply := N.TakePreVote(n, a, recentLeader);
            && reply.term == n.currentTerm
            && (reply.granted <==> n.currentTerm <= a.term && !recentLeader && AtLeast(n, a.lastIndex, a.lastTerm))
            && reply.state == if n.currentTerm > a.term then EXPIRED
                              else if !AtLeast(n, a.lastIndex, a.lastTerm) then NOT_UP_TO_DATE
                              else if recentLeader then VOTED else NORMAL
  {
    LogIs(n);
  }

  // ---------------------------------------------------------------- appending

  /** The first agreed entries of the request are in the log already, and the next one, if any, is not. */
  predicate Agreed(n: N.Node, a: AppendArgs, agreed: nat) {
    && agreed <= |a.entries| && n.snapIndex <= a.prevIndex && a.prevIndex + agreed <= Last(n)
    && (forall j | 0 <= j < agreed :: HasAt(n, a.prevIndex + 1 + j, a.entries[j].term))
    && (agreed < |a.entries| ==> !HasAt(n, a.prevIndex + 1 + agreed, a.entries[agreed].term))
  }

  /** The log after the entries: as it was if all are there, and otherwise cut at the first that is not, then they. */
  function Appended(n: N.Node, a: AppendArgs, agreed: nat): seq<Entry>
    requires Agreed(n, a, agreed)
  {
    if agreed == |a.entries| then n.logs else n.logs[..a.prevIndex - n.snapIndex + agreed] + a.entries[agreed..]
  }

  /** The entries but the last, and that. */
  function Fewer(a: AppendArgs): AppendArgs
    requires a.entries != []
  {
    a.(entries := a.entries[..|a.entries| - 1])
  }

  /** All entries before the last were there: the last is skipped, replaces what conflicts, or extends the log. */
  lemma MergeOneMore(n: N.Node, a: AppendArgs) returns (agreed: nat)
    requires N.Contiguous(n.logs, n.snapIndex) && N.AppendOk(a) && a.entries != []
    requires Agreed(n, Fewer(a), |a.entries| - 1)
    ensures Agreed(n, a, agreed)
    ensures a.entries[|a.entries| - 1].index == a.prevIndex + |a.entries| <= Last(n) + 1
    ensures N.MergeOne(n.logs, n.snapIndex, a.entries[|a.entries| - 1]) ==
            (Appended(n, a, agreed), agreed < |a.entries|)
  {
    var last := |a.entries| - 1;
    var pos := a.prevIndex + last - n.snapIndex;
    assert forall j | 0 <= j < last :: Fewer(a).entries[j] == a.entries[j];
    assert a.entries[last..] == [a.entries[last]];
    agreed := if HasAt(n, a.prevIndex + 1 + last, a.entries[last].term) then last + 1 else last;
    assert pos == |n.logs| ==> n.logs[..pos] == n.logs;
  }

  /** Some entry before the last was not there: the last is appended. */
  lemma MergeMore(n: N.Node, a: AppendArgs, agreed: nat)
    requires N.AppendOk(a) && a.entries != [] && agreed < |a.entries| - 1 && Agreed(n, Fewer(a), agreed)
    requires N.Contiguous(Appended(n, Fewer(a), agreed), n.snapIndex)
    ensures Agreed(n, a, agreed)
    ensures var l, e := Appended(n, Fewer(a), agreed), a.entries[|a.entries| - 1];
            e.index == n.snapIndex + |l| + 1 && N.MergeOne(l, n.snapIndex, e) == (Appended(n, a, agreed), true)
  {
    var last := |a.entries| - 1;
    assert forall j | 0 <= j < last :: Fewer(a).entries[j] == a.entries[j];
    var l := Appended(n, Fewer(a), agreed);
    assert |l| == a.prevIndex - n.snapIndex + last;
    assert a.entries[agreed..] == Fewer(a).entries[agreed..] + [a.entries[last]];
    assert l + [a.entries[last]] == Appended(n, a, agreed);
  }

  lemma {:induction false} MergeRule(n: N.Node, a: AppendArgs) returns (agreed: nat)
    requires N.Contiguous(n.logs, n.snapIndex) && N.AppendOk(a) && n.snapIndex <= a.prevIndex <= Last(n)
    ensures Agreed(n, a, agreed)
    ensures N.Merge(n.logs, n.snapIndex, a.prevIndex, a.entries) == (Appended(n, a, agreed), agreed < |a.entries|)
    decreases |a.entries|
  {
    if a.entries == [] {
      agreed := 0;
    } else {
      agreed := MergeRule(n, Fewer(a));
      hide Agreed, Appended, N.MergeOne;
      if agreed == |a.entries| - 1 {
        AllAgreed(n, Fewer(a));
        agreed := MergeOneMore(n, a);
      } else {
        AgreedBound(n, Fewer(a), agreed);
        MergeMore(n, a, agreed);
      }
    }
  }

  lemma AllAgreed(n: N.Node, a: AppendArgs)
    requires Agreed(n, a, |a.entries|)
    ensures Appended(n, a, |a.entries|) == n.logs
  {
  }

  lemma AgreedBound(n: N.Node, a: AppendArgs, agreed: nat)
    requires Agreed(n, a, agreed)
    ensures agreed <= |a.entries|
  {
  }

  /**
   * AppendEntries: refused exactly if the term is past or the log does not have the previous entry.  Otherwise the node
   * follows, the entries take the place of whatever conflicts with them and nothing else is dropped, and the commit
   * index follows the leader's as far as the log goes.
   */
  lemma AppendRule(n: N.Node, a: AppendArgs) returns (agreed: nat)
    requires N.WellFormed(n) && N.AppendOk(a)
    ensures var (r, reply) := N.TakeAppend(n, a);
            && reply.term == r.currentTerm == N.Max(n.currentTerm, a.term) && reply.readRound == None
            && r.status == (if n.currentTerm <= a.term then Follower else n.status)
            && (reply.success <==> n.currentTerm <= a.term && HasAt(n, a.prevIndex, a.prevTerm))
            && reply.status == (if n.currentTerm > a.term then EXPIRED else if reply.success then NORMAL
                                else LOG_OUTDATED)
            && (reply.success || n.currentTerm > a.term ==> reply.updateNextIndex == NO_SUGGESTION)
            && if reply.success
               then Agreed(n, a, agreed) && r.logs == Appended(n, a, agreed)
                    && r.commitIndex == (if a.leaderCommit > n.commitIndex then N.Min(Last(r), a.leaderCommit)
                                         else n.commitIndex)
               else r.logs == n.logs && r.commitIndex == n.commitIndex
  {
    TermRule(n, a.term);
    agreed := 0;
    if n.currentTerm <= a.term {
      var m := N.SeeTerm(n, a.term).(status := Follower);
      hide N.SeeTerm, N.FollowAppend, Agreed, Appended, HasAt;
      agreed := FollowRule(n, m, a);
    }
    hide N.FollowAppend, N.WellFormed, HasAt, Agreed, Appended;
  }

  /** The same for a node m that follows the sender and has the log of n. */
  lemma FollowRule(n: N.Node, m: N.Node, a: AppendArgs) returns (agreed: nat)
    requires N.WellFormed(m) && m.status == Follower && N.AppendOk(a)
    requires m.logs == n.logs && m.snapIndex == n.snapIndex && m.snapTerm == n.snapTerm
    ensures var (r, reply) := N.FollowAppend(m, a);
            && reply.term == r.currentTerm == m.currentTerm && reply.readRound == None && r.status == Follower
            && (reply.success <==> HasAt(n, a.prevIndex, a.prevTerm))
            && reply.status == (if reply.success then NORMAL else LOG_OUTDATED)
            && (reply.success ==> reply.updateNextIndex == NO_SUGGESTION)
            && if reply.success
               then Agreed(n, a, agreed) && r.logs == Appended(n, a, agreed) && r.snapIndex == n.snapIndex
                    && r.commitIndex == (if a.leaderCommit > m.commitIndex then N.Min(Last(r), a.leaderCommit)
                                         else m.commitIndex)
               else r == m
  {
    SameLog(n, m, a);
    agreed := 0;
    if HasAt(n, a.prevIndex, a.prevTerm) {
      agreed := StoreRule(n, m, a);
      CommitRule(N.StoreEntries(m, a), a.leaderCommit);
    }
    hide N.CommitTo, N.StoreEntries, N.WellFormed, N.Suggest, HasAt, Agreed, Appended;
  }

  lemma StoreRule(n: N.Node, m: N.Node, a: AppendArgs) returns (agreed: nat)
    requires N.WellFormed(m) && m.status == Follower && N.AppendOk(a)
    requires m.logs == n.logs && m.snapIndex == n.snapIndex && n.snapIndex <= a.prevIndex <= N.LastIndex(m)
    ensures Agreed(n, a, agreed)
    ensures var r := N.StoreEntries(m, a);
            && r.logs == Appended(n, a, agreed) && r.snapIndex == n.snapIndex && r.commitIndex == m.commitIndex
            && r.currentTerm == m.currentTerm && r.status == m.status
  {
    N.LastIndexIs(m);
    agreed := MergeRule(n, a);
    AgreedBound(n, a, agreed);
    if agreed == |a.entries| { AllAgreed(n, a); }
    hide Agreed, Appended, N.Merge;
  }

  lemma SameLog(n: N.Node, m: N.Node, a: AppendArgs)
    requires N.WellFormed(m) && m.logs == n.logs && m.snapIndex == n.snapIndex && m.snapTerm == n.snapTerm
    ensures N.Matches(m, a.prevIndex, a.prevTerm) <==> HasAt(n, a.prevIndex, a.prevTerm)
  {
    LogIs(m);
  }

  lemma CommitRule(n: N.Node, leaderCommit: int)
    requires N.WellFormed(n)
    ensures var r := N.CommitTo(n, leaderCommit);
            && r.logs == n.logs && r.snapIndex == n.snapIndex && r.currentTerm == n.currentTerm && r.status == n.status
            && r.commitIndex == if leaderCommit > n.commitIndex then N.Min(Last(n), leaderCommit) else n.commitIndex
  {
    N.LastIndexIs(n);
  }

  /** hint is where the run of equal terms that ends at index c starts, down to the snapshot point. */
  predicate StartsRun(n: N.Node, hint: int, c: int) {
    && n.snapIndex < hint <= c <= Last(n)
    && (forall x {:trigger EntryTerm(n, x)} | hint <= x <= c :: EntryTerm(n, x) == EntryTerm(n, c))
    && (hint == n.snapIndex + 1 || EntryTerm(n, hint - 1) != EntryTerm(n, c))
  }

  /** The hint in a refusal: where the run of the conflicting term starts, but never at or below the snapshot point. */
  lemma HintRule(n: N.Node, a: AppendArgs)
    requires N.WellFormed(n) && N.AppendOk(a) && n.currentTerm <= a.term && !HasAt(n, a.prevIndex, a.prevTerm)
    ensures var hint, c := N.TakeAppend(n, a).1.updateNextIndex, N.Min(a.prevIndex, Last(n));
            if c <= n.snapIndex then hint == n.snapIndex + 1 else StartsRun(n, hint, c)
  {
    TermRule(n, a.term);
    N.LastIndexIs(n);
    var m, c := N.SeeTerm(n, a.term).(status := Follower), N.Min(a.prevIndex, Last(n));
    SameLog(n, m, a);
    hide N.SeeTerm;
    if n.snapIndex < c {
      HintIs(m, c);
      SameRun(n, m, N.WalkBack(m, c), c);
    }
    hide N.WellFormed, StartsRun, HasAt, N.WalkBack, N.Contiguous;
  }

  lemma SameRun(n: N.Node, m: N.Node, hint: int, c: int)
    requires StartsRun(m, hint, c) && m.logs == n.logs && m.snapIndex == n.snapIndex
    ensures StartsRun(n, hint, c)
  {
    assert forall x | n.snapIndex < x <= Last(n) :: EntryTerm(n, x) == EntryTerm(m, x);
  }

  lemma HintIs(m: N.Node, c: int)
    requires N.WellFormed(m) && m.snapIndex < c <= Last(m)
    ensures N.LastIndex(m) == Last(m) && StartsRun(m, N.WalkBack(m, c), c)
  {
    N.LastIndexIs(m);
    var hint := N.WalkBack(m, c);
    forall x {:trigger EntryTerm(m, x)} | hint <= x <= c ensures EntryTerm(m, x) == EntryTerm(m, c) {
      assert N.TermOf(m, x) == N.TermOf(m, c);
    }
  }

  /** A read heartbeat is acknowledged, with its round, exactly if its term is not past. */
  lemma HeartBeatRule(n: N.Node, a: AppendArgs)
    requires N.WellFormed(n)
    ensures var (r, reply) := N.TakeReadHeartBeat(n, a);
            && reply.term == r.currentTerm == N.Max(n.currentTerm, a.term) && reply.readRound == a.readRound
            && (reply.success <==> n.currentTerm <= a.term)
            && reply.status == (if reply.success then NORMAL else EXPIRED)
            && r.status == (if n.currentTerm <= a.term then Follower else n.status)
            && r.logs == n.logs && r.commitIndex == n.commitIndex
  {
    TermRule(n, a.term);
    hide N.SeeTerm;
  }

  // ---------------------------------------------------------------- snapshots and restarts

  /** The log above index x, when it has this term there, and nothing otherwise. */
  function LogAfter(n: N.Node, x: int, term: int): seq<Entry>
    requires n.snapIndex < x
  {
    if HasAt(n, x, term) then n.logs[x - n.snapIndex..] else []
  }

  /**
   * InstallSnapshot: taken exactly if its term is not past and it goes beyond the node's own.  What follows it in the
   * log stays if the log has its last entry, and the whole log goes otherwise.
   */
  lemma InstallRule(n: N.Node, a: SnapshotArgs)
    requires N.WellFormed(n)
    ensures var (r, reply) := N.TakeSnapshot(n, a);
            && reply.term == r.currentTerm == N.Max(n.currentTerm, a.term)
            && r.status == (if n.currentTerm <= a.term then Follower else n.status)
            && if n.currentTerm <= a.term && n.snapIndex < a.lastIndex
               then r.snapIndex == a.lastIndex && r.snapTerm == a.lastTerm && r.disk.snapshot == a.data
                    && r.commitIndex == N.Max(n.commitIndex, a.lastIndex)
                    && r.logs == LogAfter(n, a.lastIndex, a.lastTerm)
               else r.snapIndex == n.snapIndex && r.logs == n.logs && r.commitIndex == n.commitIndex
  {
    TermRule(n, a.term);
    if n.currentTerm <= a.term && n.snapIndex < a.lastIndex {
      var m := N.SeeTerm(n, a.term).(status := Follower);
      hide N.SeeTerm;
      SuffixIs(n, m, a);
    }
    hide N.SeeTerm, LogAfter, N.WellFormed, N.KeepsSuffix;
  }

  lemma SuffixIs(n: N.Node, m: N.Node, a: SnapshotArgs)
    requires N.WellFormed(m) && m.status == Follower && n.snapIndex < a.lastIndex
    requires m.logs == n.logs && m.snapIndex == n.snapIndex && m.snapTerm == n.snapTerm
    ensures N.Install(m, a).logs == LogAfter(n, a.lastIndex, a.lastTerm)
  {
    N.LastIndexIs(m);
  }

  /** A snapshot of a committed index beyond the last one takes the place of the log up to it, and of nothing above. */
  lemma CompactRule(n: N.Node, index: int, data: string)
    requires N.WellFormed(n) && n.commitIndex <= Last(n)
    ensures N.LastIndex(n) == Last(n)
    ensures var r := N.DoSnapshot(n, index, data);
            if n.snapIndex < index <= n.commitIndex
            then r.snapIndex == index && HasAt(n, index, r.snapTerm) && r.logs == n.logs[index - n.snapIndex..]
                 && r.disk.snapshot == data && r.commitIndex == n.commitIndex
            else r == n
  {
    N.LastIndexIs(n);
  }

  /** A restart brings back what was persisted; the node follows, and takes its snapshot for all that is committed. */
  lemma RestartRule(id: Id, peers: seq<Id>, disk: N.Disk)
    ensures var r := N.Boot(id, peers, disk);
            && N.PersistentOf(r) == disk.state && r.disk == disk && r.id == id && r.peers == peers
            && r.status == Follower && !r.currentTermCommitted && r.activeRead == None && r.out == []
            && r.commitIndex == r.lastApplied == N.Max(0, disk.state.snapIndex)
  {
  }
}
