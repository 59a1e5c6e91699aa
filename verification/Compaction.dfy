/** A compacted log answers every question above its snapshot point as the full log would. */
module Compaction {
  import opened Types
  import H = History
  import N = Node

  /** n keeps the part of the full log above its snapshot point. */
  predicate KeepsTail(n: N.Node, full: seq<Entry>) {
    && 0 <= n.snapIndex <= |full|
    && (forall k | 0 <= k < |full| :: full[k].index == k + 1)
    && n.logs == full[n.snapIndex..] && n.snapTerm == H.TermAt(full, n.snapIndex)
  }

  lemma AnswersAsFull(n: N.Node, full: seq<Entry>, index: int, term: int)
    requires KeepsTail(n, full)
    ensures N.Contiguous(n.logs, n.snapIndex)
    ensures N.LastIndex(n) == |full| && N.LastTerm(n) == H.LastTerm(full)
    ensures N.WhetherVoteFor(n, index, term) <==> H.UpToDate(index, term, full)
    ensures n.snapIndex <= index <= |full| ==> N.TermOf(n, index) == H.TermAt(full, index)
    ensures N.Matches(n, index, term) <==> n.snapIndex <= index <= |full| && H.TermAt(full, index) == term
  {
    N.LastIndexIs(n);
  }

  /** Append requests carry exactly the full log from nextIndex on. */
  lemma SendsTheRest(n: N.Node, full: seq<Entry>, p: Id)
    requires KeepsTail(n, full) && N.WellFormed(n) && n.status == Leader && p in n.peers && n.snapIndex < n.nextIndex[p]
    ensures var a := N.BuildAppend(n, p);
            a.prevIndex == n.nextIndex[p] - 1 && 0 <= a.prevIndex <= |full|
            && a.prevTerm == H.TermAt(full, a.prevIndex) && a.entries == full[a.prevIndex..]
  {
    N.LastIndexIs(n);
    var prev := n.nextIndex[p] - 1;
    assert full[n.snapIndex..][prev - n.snapIndex..] == full[prev..];
  }

  /** Compaction moves the snapshot point up to what is committed and keeps to the same full log. */
  lemma CompactionKeeps(n: N.Node, full: seq<Entry>, index: int, data: string)
    requires KeepsTail(n, full) && N.WellFormed(n) && n.commitIndex <= N.LastIndex(n)
    ensures KeepsTail(N.DoSnapshot(n, index, data), full)
    ensures N.DoSnapshot(n, index, data).snapIndex ==
            if n.snapIndex < index <= n.commitIndex then index else n.snapIndex
  {
    N.LastIndexIs(n);
    if n.snapIndex < index <= n.commitIndex {
      AnswersAsFull(n, full, index, 0);
      assert full[n.snapIndex..][index - n.snapIndex..] == full[index..];
    }
  }

  /** So does installing a snapshot that ends at an entry of this log. */
  lemma InstallKeeps(n: N.Node, full: seq<Entry>, a: SnapshotArgs)
    requires KeepsTail(n, full) && N.WellFormed(n) && n.status != Leader && n.snapIndex < a.lastIndex
    ensures N.KeepsSuffix(n, a) <==> a.lastIndex <= |full| && H.TermAt(full, a.lastIndex) == a.lastTerm
    ensures N.KeepsSuffix(n, a) ==> KeepsTail(N.Install(n, a), full)
    ensures !N.KeepsSuffix(n, a) ==> N.Install(n, a).logs == [] && N.LastIndex(N.Install(n, a)) == a.lastIndex
  {
    AnswersAsFull(n, full, a.lastIndex, a.lastTerm);
    if N.KeepsSuffix(n, a) {
      assert full[n.snapIndex..][a.lastIndex - n.snapIndex..] == full[a.lastIndex..];
    }
  }

  /** Two nodes that keep parts of one log, whatever their snapshot points, cannot be told apart above both. */
  lemma CompactionInvisible(n: N.Node, m: N.Node, full: seq<Entry>, index: int, term: int)
    requires KeepsTail(n, full) && KeepsTail(m, full)
    ensures N.LastIndex(n) == N.LastIndex(m) && N.LastTerm(n) == N.LastTerm(m)
    ensures N.WhetherVoteFor(n, index, term) <==> N.WhetherVoteFor(m, index, term)
    ensures N.Contiguous(n.logs, n.snapIndex) && N.Contiguous(m.logs, m.snapIndex)
    ensures N.Max(n.snapIndex, m.snapIndex) <= index ==> (N.Matches(n, index, term) <==> N.Matches(m, index, term))
  {
    AnswersAsFull(n, full, index, term);
    AnswersAsFull(m, full, index, term);
  }
}
