/** How a leader finds the point where a follower's log joins its own, and exactly when it does. */
module Backtracking {
  import opened Types
  import N = Node

  /** A leader with next index x for peer p. */
  predicate Trying(n: N.Node, p: Id, x: int) {
    N.WellFormed(n) && n.status == Leader && p in n.peers && 1 <= x <= N.LastIndex(n) + 1
  }

  /** Would the follower f, as it stands, take what the leader sends for next index x? */
  predicate Accepts(n: N.Node, f: N.Node, x: int)
    requires N.WellFormed(n) && N.WellFormed(f) && n.snapIndex < x <= N.LastIndex(n) + 1
  {
    N.Matches(f, x - 1, N.TermOf(n, x - 1))
  }

  /** The leader's next index after the rejection: the follower's suggestion, as handleAppendReply takes it. */
  function NextTry(n: N.Node, p: Id, f: N.Node, x: int): (r: int)
    requires Trying(n, p, x) && N.WellFormed(f)
    ensures Trying(n, p, r)
  {
    N.Backtrack(n.(nextIndex := n.nextIndex[p := x]), p, N.Suggest(f, x - 1))
  }

  /** The follower's snapshot point, where the leader's log still reaches it, agrees with the leader's log. */
  predicate SnapshotAgrees(n: N.Node, f: N.Node)
    requires N.WellFormed(n)
  {
    n.snapIndex <= f.snapIndex <= N.LastIndex(n) ==> N.TermOf(n, f.snapIndex) == f.snapTerm
  }

  // ---------------------------------------------------------------- one rejection

  /** Each rejection lowers nextIndex, and never below the follower's snapshot point plus one. */
  lemma RejectionLowers(n: N.Node, p: Id, f: N.Node, x: int)
    requires Trying(n, p, x) && N.WellFormed(f) && SnapshotAgrees(n, f)
    requires n.snapIndex < x && f.snapIndex < x && !Accepts(n, f, x)
    ensures f.snapIndex + 1 <= NextTry(n, p, f, x) < x
  {
    N.LastIndexIs(n);
    N.LastIndexIs(f);
  }

  /** If the follower's snapshot point lies beyond what the leader tries, the larger suggestion is refused. */
  lemma AheadStepsBack(n: N.Node, p: Id, f: N.Node, x: int)
    requires Trying(n, p, x) && N.WellFormed(f) && x <= f.snapIndex
    ensures NextTry(n, p, f, x) == N.Max(1, x - 1)
    ensures n.snapIndex < x ==> !Accepts(n, f, x)
  {
  }

  // ---------------------------------------------------------------- the exchange up to a match or a snapshot

  /** The leader turns to the snapshot, or the follower takes what it is sent. */
  predicate Ends(n: N.Node, f: N.Node, x: int)
    requires N.WellFormed(n) && N.WellFormed(f) && x <= N.LastIndex(n) + 1
  {
    x <= n.snapIndex || Accepts(n, f, x)
  }

  /** The index tried after k rejections, if the follower's log does not change. */
  function Tries(n: N.Node, p: Id, f: N.Node, x: int, k: nat): (r: int)
    requires Trying(n, p, x) && N.WellFormed(f)
    ensures Trying(n, p, r)
    decreases k
  {
    if k == 0 || Ends(n, f, x) then x else Tries(n, p, f, NextTry(n, p, f, x), k - 1)
  }

  /** Where the exchange ends, unless the follower's snapshot point is ahead and the leader has no snapshot. */
  function Settle(n: N.Node, p: Id, f: N.Node, x: int): (r: int)
    requires Trying(n, p, x) && N.WellFormed(f) && SnapshotAgrees(n, f)
    requires f.snapIndex < x || 1 <= n.snapIndex
    ensures 1 <= r <= x && Ends(n, f, r)
    ensures f.snapIndex < x ==> f.snapIndex < r
    ensures x <= f.snapIndex ==> r <= n.snapIndex
    decreases x
  {
    if f.snapIndex < x then
      if Ends(n, f, x) then x
      else
        RejectionLowers(n, p, f, x);
        Settle(n, p, f, NextTry(n, p, f, x))
    else
      AheadStepsBack(n, p, f, x);
      if x <= n.snapIndex then x else Settle(n, p, f, NextTry(n, p, f, x))
  }

  lemma {:induction false} SettleIsTried(n: N.Node, p: Id, f: N.Node, x: int) returns (k: nat)
    requires Trying(n, p, x) && N.WellFormed(f) && SnapshotAgrees(n, f)
    requires f.snapIndex < x || 1 <= n.snapIndex
    ensures k < x && Tries(n, p, f, x, k) == Settle(n, p, f, x)
    decreases x
  {
    hide NextTry;
    k := 0;
    if !Ends(n, f, x) {
      if f.snapIndex < x { RejectionLowers(n, p, f, x); } else { AheadStepsBack(n, p, f, x); }
      k := SettleIsTried(n, p, f, NextTry(n, p, f, x));
      k := k + 1;
    }
  }

  /** With the follower's snapshot point ahead and no snapshot to send, the leader goes down to 1 and stays there. */
  lemma {:induction false} NeverEnds(n: N.Node, p: Id, f: N.Node, x: int, k: nat)
    requires Trying(n, p, x) && N.WellFormed(f) && x <= f.snapIndex && n.snapIndex == 0
    ensures Tries(n, p, f, x, k) == N.Max(1, x - k) && !Ends(n, f, Tries(n, p, f, x, k))
    decreases k
  {
    AheadStepsBack(n, p, f, x);
    if k > 0 {
      NeverEnds(n, p, f, NextTry(n, p, f, x), k - 1);
    }
  }

  /**
   * Against a follower that does not change, the exchange ends, in a match or at the snapshot, exactly if the
   * follower's snapshot point is below the index tried first or the leader has a snapshot.
   */
  lemma EndsIff(n: N.Node, p: Id, f: N.Node, x: int)
    requires Trying(n, p, x) && N.WellFormed(f) && SnapshotAgrees(n, f)
    ensures (exists k: nat :: Ends(n, f, Tries(n, p, f, x, k))) <==> f.snapIndex < x || 1 <= n.snapIndex
  {
    if f.snapIndex < x || 1 <= n.snapIndex {
      var k := SettleIsTried(n, p, f, x);
    } else {
      forall k: nat ensures !Ends(n, f, Tries(n, p, f, x, k)) {
        NeverEnds(n, p, f, x, k);
      }
    }
  }

  // ---------------------------------------------------------------- the exchange with snapshots, up to a match

  /** The leader's next index for the peer, and the peer as it is. */
  datatype Exchange = Exchange(next: int, follower: N.Node)

  predicate Proper(n: N.Node, p: Id, e: Exchange) {
    Trying(n, p, e.next) && N.WellFormed(e.follower) && e.follower.currentTerm <= n.currentTerm
  }

  predicate Joined(n: N.Node, p: Id, e: Exchange)
    requires Proper(n, p, e)
  {
    n.snapIndex < e.next && Accepts(n, e.follower, e.next)
  }

  /** The follower after the leader's snapshot. */
  function Served(n: N.Node, f: N.Node): (r: N.Node)
    requires N.WellFormed(f)
    ensures N.WellFormed(r)
  {
    N.TakeSnapshot(f, N.BuildSnapshot(n)).0
  }

  /** What the leader tries after the peer took, or ignored, its snapshot. */
  function AfterSnapshot(n: N.Node, p: Id): (r: int)
    requires N.WellFormed(n) && n.status == Leader && p in n.peers
    ensures Trying(n, p, r)
  {
    N.LastIndexIs(n);
    N.Credit(n, p, n.snapIndex).nextIndex[p]
  }

  /** Seeing the leader's term moves no index. */
  lemma SeeTermPoint(f: N.Node, t: int)
    requires N.WellFormed(f) && f.currentTerm <= t
    ensures var r := N.SeeTerm(f, t);
            && N.WellFormed(r) && r.currentTerm == t && r.snapIndex == f.snapIndex && r.snapTerm == f.snapTerm
            && r.logs == f.logs
  {
    hide N.CloseRead, N.WellFormed;
  }

  lemma FollowerFormed(f: N.Node)
    requires N.WellFormed(f)
    ensures N.WellFormed(f.(status := Follower))
  {
  }

  lemma InstallPoint(f: N.Node, a: SnapshotArgs)
    requires N.WellFormed(f) && f.status == Follower && f.snapIndex < a.lastIndex
    ensures var r := N.Install(f, a);
            r.snapIndex == a.lastIndex && r.snapTerm == a.lastTerm && r.currentTerm == f.currentTerm
  {
  }

  /** A snapshot brings the follower's snapshot point up to the leader's, and leaves one that is ahead alone. */
  lemma ServedPoint(n: N.Node, f: N.Node)
    requires N.WellFormed(n) && N.WellFormed(f) && f.currentTerm <= n.currentTerm
    ensures var r := Served(n, f);
            && r.currentTerm == n.currentTerm && r.snapIndex == N.Max(f.snapIndex, n.snapIndex)
            && r.snapTerm == if f.snapIndex < n.snapIndex then n.snapTerm else f.snapTerm
  {
    hide N.Install, N.SeeTerm, N.WellFormed;
    SeeTermPoint(f, n.currentTerm);
    FollowerFormed(N.SeeTerm(f, n.currentTerm));
    var f1 := N.SeeTerm(f, n.currentTerm).(status := Follower);
    if f.snapIndex < n.snapIndex { InstallPoint(f1, N.BuildSnapshot(n)); }
  }

  /** One request of the leader and its answer. */
  function Attempt(n: N.Node, p: Id, e: Exchange): (r: Exchange)
    requires Proper(n, p, e)
    ensures Proper(n, p, r)
  {
    ServedPoint(n, e.follower);
    if e.next <= n.snapIndex then Exchange(AfterSnapshot(n, p), Served(n, e.follower))
    else if Joined(n, p, e) then e
    else e.(next := NextTry(n, p, e.follower, e.next))
  }

  function Attempts(n: N.Node, p: Id, e: Exchange, k: nat): (r: Exchange)
    requires Proper(n, p, e)
    ensures Proper(n, p, r)
    decreases k
  {
    if k == 0 then e else Attempts(n, p, Attempt(n, p, e), k - 1)
  }

  lemma SnapshotRaises(n: N.Node, p: Id, e: Exchange)
    requires Proper(n, p, e) && e.next <= n.snapIndex && SnapshotAgrees(n, e.follower)
    ensures var f := Attempt(n, p, e).follower;
            f.snapIndex == N.Max(e.follower.snapIndex, n.snapIndex) && SnapshotAgrees(n, f)
    ensures Attempt(n, p, e).next == N.Max(n.matchIndex[p], n.snapIndex) + 1
  {
    ServedPoint(n, e.follower);
    hide Served;
  }

  /** From above the follower's snapshot point a match is found. */
  lemma {:induction false} JoinsFromAbove(n: N.Node, p: Id, e: Exchange) returns (k: nat)
    requires Proper(n, p, e) && SnapshotAgrees(n, e.follower) && e.follower.snapIndex < e.next
    ensures Joined(n, p, Attempts(n, p, e, k))
    decreases if e.follower.snapIndex < n.snapIndex then 1 else 0, e.next
  {
    k := 0;
    if !Joined(n, p, e) {
      if e.next <= n.snapIndex { SnapshotRaises(n, p, e); } else { RejectionLowers(n, p, e.follower, e.next); }
      k := JoinsFromAbove(n, p, Attempt(n, p, e));
      k := k + 1;
    }
  }

  /** From below it is found by way of the snapshot, if that brings the leader above the follower's snapshot point. */
  lemma {:induction false} JoinsFromBelow(n: N.Node, p: Id, e: Exchange) returns (k: nat)
    requires Proper(n, p, e) && SnapshotAgrees(n, e.follower) && e.next <= e.follower.snapIndex
    requires 1 <= n.snapIndex && e.follower.snapIndex <= N.Max(n.matchIndex[p], n.snapIndex)
    ensures Joined(n, p, Attempts(n, p, e, k))
    decreases e.next
  {
    if e.next <= n.snapIndex {
      SnapshotRaises(n, p, e);
      k := JoinsFromAbove(n, p, Attempt(n, p, e));
    } else {
      AheadStepsBack(n, p, e.follower, e.next);
      k := JoinsFromBelow(n, p, Attempt(n, p, e));
    }
    k := k + 1;
  }

  /** The follower's snapshot point is below what the leader tries, or not ahead of where its snapshot leads. */
  predicate CanJoin(n: N.Node, p: Id, e: Exchange)
    requires Proper(n, p, e)
  {
    || e.follower.snapIndex < e.next
    || (1 <= n.snapIndex && e.follower.snapIndex <= N.Max(n.matchIndex[p], n.snapIndex))
  }

  lemma Joins(n: N.Node, p: Id, e: Exchange) returns (k: nat)
    requires Proper(n, p, e) && SnapshotAgrees(n, e.follower) && CanJoin(n, p, e)
    ensures Joined(n, p, Attempts(n, p, e, k))
  {
    hide Joined, Attempts;
    if e.follower.snapIndex < e.next { k := JoinsFromAbove(n, p, e); } else { k := JoinsFromBelow(n, p, e); }
  }

  /** Otherwise the leader goes on forever, between refused suggestions and snapshots that the follower ignores. */
  lemma {:induction false} NeverJoins(n: N.Node, p: Id, e: Exchange, k: nat)
    requires Proper(n, p, e) && SnapshotAgrees(n, e.follower) && !CanJoin(n, p, e)
    ensures !Joined(n, p, Attempts(n, p, e, k))
    decreases k
  {
    AheadStepsBack(n, p, e.follower, e.next);
    if k > 0 {
      if e.next <= n.snapIndex { SnapshotRaises(n, p, e); }
      NeverJoins(n, p, Attempt(n, p, e), k - 1);
    }
  }

  /** Replication finds a point where the logs join exactly under this condition. */
  lemma JoinsIff(n: N.Node, p: Id, e: Exchange)
    requires Proper(n, p, e) && SnapshotAgrees(n, e.follower)
    ensures (exists k: nat :: Joined(n, p, Attempts(n, p, e, k))) <==> CanJoin(n, p, e)
  {
    hide Joined, Attempts, Proper, SnapshotAgrees, CanJoin;
    if CanJoin(n, p, e) {
      var k := Joins(n, p, e);
    } else {
      forall k: nat ensures !Joined(n, p, Attempts(n, p, e, k)) {
        NeverJoins(n, p, e, k);
      }
    }
  }

  // ---------------------------------------------------------------- a stuck pair

  const ENTRIES := [Entry(1, 1, Noop(0)), Entry(1, 2, Noop(0)), Entry(1, 3, Noop(0))]

  /** A leader of term 1 that has three entries, has compacted none and tries index 1 for its only peer. */
  function StuckLeader(): N.Node {
    N.Boot(0, [1], N.Disk(N.PersistentState(1, 0, ENTRIES, 0, 0), ""))
      .(status := Leader, commitIndex := 2, lastApplied := 2)
  }

  /** Its peer, with the same entries, has compacted two of them. */
  function StuckFollower(): N.Node {
    N.Boot(1, [0], N.Disk(N.PersistentState(1, NO_VOTE, ENTRIES[2..], 2, 1), "s"))
  }

  /** Their logs agree, and still no number of rejections brings the leader to send what the follower can take. */
  lemma StuckForever()
    ensures var n, f := StuckLeader(), StuckFollower();
            && Proper(n, 1, Exchange(1, f)) && SnapshotAgrees(n, f)
            && (forall k: nat :: !Ends(n, f, Tries(n, 1, f, 1, k)))
            && (forall k: nat :: !Joined(n, 1, Attempts(n, 1, Exchange(1, f), k)))
  {
    var n, f := StuckLeader(), StuckFollower();
    EndsIff(n, 1, f, 1);
    JoinsIff(n, 1, Exchange(1, f));
  }
}
