/**
 * What holds in every run: any number of nodes, any loss, delay, reordering and repetition of messages, timeouts,
 * leader changes, compaction, snapshot installs and restarts from what is on disk.
 */
module Safety {
  import opened Types
  import opened History
  import opened Steps
  import opened Relation
  import opened Handlers
  import opened Cluster
  import opened Reachable
  import opened Runs
  import B = Backtracking
  import Compaction
  import N = Node

  // ---------------------------------------------------------------- what a node holds

  /** The entry at index x, unless it is compacted away or beyond the log. */
  function Held(n: N.Node, x: int): Option<Entry> {
    if n.snapIndex < x <= n.snapIndex + |n.logs| then Some(n.logs[x - n.snapIndex - 1]) else None
  }

  /** The term at index x, as far down as the snapshot point. */
  function HeldTerm(n: N.Node, x: int): Option<int> {
    if x == n.snapIndex then Some(n.snapTerm)
    else if Held(n, x).Some? then Some(Held(n, x).value.term)
    else None
  }

  lemma HeldIs(g: History, i: Id, n: N.Node, x: int)
    requires Inv(g) && Holds(g, i, n)
    ensures n.snapIndex < x <= |g.log[i]| ==> Held(n, x) == Some(g.log[i][x - 1])
    ensures Held(n, x).Some? ==> n.snapIndex < x <= |g.log[i]|
    ensures n.snapIndex <= x <= |g.log[i]| ==> HeldTerm(n, x) == Some(TermAt(g.log[i], x))
    ensures HeldTerm(n, x).Some? ==> n.snapIndex <= x <= |g.log[i]|
    ensures N.LastIndex(n) == |g.log[i]|
  {
    hide Coherent, QueueRel, Roles;
    N.LastIndexIs(n);
  }

  /** Node i of state k, with the histories that explain it. */
  lemma Explained(s: seq<Cluster>, gs: seq<History>, k: nat, i: Id)
    requires Chain(s, gs) && k < |s| && i in s[k].nodes
    ensures Inv(gs[k]) && i in gs[k].members && Holds(gs[k], i, s[k].nodes[i])
  {
    hide Coherent;
    assert Explains(gs[k], s[k]);
  }

  lemma ExplainedEvent(s: seq<Cluster>, gs: seq<History>, k: nat, p: nat)
    requires Chain(s, gs) && k < |s| && p < |s[k].trace|
    ensures Inv(gs[k]) && s[k].trace[p].node in gs[k].members
    ensures OutputSound(gs[k], s[k].trace[p].node, s[k].trace[p].output)
  {
    hide Coherent, OutputSound;
    assert Explains(gs[k], s[k]);
    assert EventOk(gs[k], s[k].trace[p]);
  }

  lemma ChainExtends(s: seq<Cluster>, gs: seq<History>, a: nat, b: nat)
    requires Chain(s, gs) && a <= b < |s|
    ensures DomainOk(gs[a]) && DomainOk(gs[b]) && Extends(gs[a], gs[b])
  {
    assert Later(gs[a], gs[b]);
  }

  // ---------------------------------------------------------------- index safety and durability

  /**
   * No handler trips an index assertion, except reads (see ReadAssertion.ReadSafeIff), which then end the process; and
   * the indexes of every node are in order between handlers.
   */
  lemma IndexSafety(s: seq<Cluster>, actions: seq<Action>, k: nat)
    requires Run(s, actions) && k < |s|
    ensures k < |actions| ==> Possible(s[k], actions[k]) && Safe(s[k], actions[k])
    ensures forall i | i in s[k].nodes ::
              var n := s[k].nodes[i];
              N.WellFormed(n) && n.snapIndex <= n.lastApplied == n.commitIndex <= N.LastIndex(n)
  {
    var gs := RunExplained(s, actions);
    if k < |actions| {
      hide Explains;
      assert Explains(gs[k], s[k]) && Next(s[k], actions[k], s[k + 1]);
      var h := StepExplained(s[k], gs[k], actions[k]);
    }
    forall i | i in s[k].nodes
      ensures var n := s[k].nodes[i];
              N.WellFormed(n) && n.snapIndex <= n.lastApplied == n.commitIndex <= N.LastIndex(n)
    {
      Explained(s, gs, k, i);
      HeldIs(gs[k], i, s[k].nodes[i], 0);
    }
  }

  /** After every handler the record on disk is the node's term, vote, snapshot point and log; a restart restores it. */
  lemma Durability(s: seq<Cluster>, actions: seq<Action>, k: nat, i: Id)
    requires Run(s, actions) && k < |s| && i in s[k].nodes
    ensures var n := s[k].nodes[i];
            && n.disk.state == N.PersistentOf(n)
            && N.PersistentOf(N.Boot(n.id, n.peers, n.disk)) == N.PersistentOf(n)
  {
    var gs := RunExplained(s, actions);
    Explained(s, gs, k, i);
  }

  // ---------------------------------------------------------------- leaders

  /** i is leader of term t, or became so earlier. */
  ghost predicate Claims(c: Cluster, i: Id, t: int) {
    || (i in c.nodes && c.nodes[i].status == Leader && c.nodes[i].currentTerm == t)
    || exists p :: 0 <= p < |c.trace| && c.trace[p] == Event(i, Elected(t))
  }

  lemma ClaimsLead(s: seq<Cluster>, gs: seq<History>, k: nat, i: Id, t: int)
    requires Chain(s, gs) && k < |s| && Claims(s[k], i, t)
    ensures Leads(gs[k], i, t)
  {
    hide Explains, Coherent;
    if i in s[k].nodes && s[k].nodes[i].status == Leader && s[k].nodes[i].currentTerm == t {
      Explained(s, gs, k, i);
    } else {
      var p :| 0 <= p < |s[k].trace| && s[k].trace[p] == Event(i, Elected(t));
      ExplainedEvent(s, gs, k, p);
    }
  }

  lemma LeadsGrows(g: History, h: History, i: Id, t: int)
    requires DomainOk(g) && DomainOk(h) && Extends(g, h) && Leads(g, i, t)
    ensures Leads(h, i, t)
  {
    assert ReignGrows(g, h, t);
  }

  /** Election Safety: at most one node ever leads in a term, across all states and restarts. */
  lemma ElectionSafety(s: seq<Cluster>, actions: seq<Action>, a: nat, b: nat, i: Id, j: Id, t: int)
    requires Run(s, actions) && a <= b < |s| && Claims(s[a], i, t) && Claims(s[b], j, t)
    ensures i == j
  {
    hide Run;
    var gs := RunExplained(s, actions);
    ClaimsLead(s, gs, a, i, t);
    ClaimsLead(s, gs, b, j, t);
    ChainExtends(s, gs, a, b);
    LeadsGrows(gs[a], gs[b], i, t);
  }

  /** Without word from a leader, a pre-vote for a later term is granted exactly if the vote itself would be. */
  lemma PreVoteForetellsVote(n: N.Node, a: VoteArgs, recentLeader: bool)
    requires N.WellFormed(n) && a.candidate != NO_VOTE
    ensures N.TakePreVote(n, a, recentLeader).granted ==> !recentLeader && n.currentTerm <= a.term
    ensures n.currentTerm < a.term && !recentLeader ==>
      (N.TakePreVote(n, a, recentLeader).granted <==> N.TakeVote(n, a).1.granted)
  {
    if n.currentTerm < a.term {
      var m := N.SeeTerm(n, a.term);
      assert m.votedFor == NO_VOTE && N.LastIndex(m) == N.LastIndex(n) && N.LastTerm(m) == N.LastTerm(n);
    }
  }

  /** n has its vote for i in term t recorded, on disk too, or is past that term. */
  predicate VotedFor(n: N.Node, i: Id, t: int) {
    n.currentTerm > t || (n.currentTerm == t && n.votedFor == n.disk.state.votedFor == i)
  }

  /** A candidate's vote count is the number of distinct nodes that voted for it in its term. */
  lemma VotesAreDistinct(s: seq<Cluster>, actions: seq<Action>, k: nat, i: Id) returns (voters: set<Id>)
    requires Run(s, actions) && k < |s| && i in s[k].nodes && s[k].nodes[i].status == Candidate
    ensures |voters| == s[k].nodes[i].votesGranted && i in voters
    ensures forall v | v in voters :: v in s[k].nodes && VotedFor(s[k].nodes[v], i, s[k].nodes[i].currentTerm)
  {
    hide Run, QueueRel, LeaderRel, ReadRel;
    var gs := RunExplained(s, actions);
    Explained(s, gs, k, i);
    var g, t := gs[k], s[k].nodes[i].currentTerm;
    voters := g.tally[i];
    forall v | v in voters ensures v in s[k].nodes && VotedFor(s[k].nodes[v], i, t) {
      assert Explains(g, s[k]);
      Explained(s, gs, k, v);
      assert VoteOk(g, Ballot(v, t));
    }
  }

  /**
   * The current-term flag is set exactly while a leader's commit point lies in its own term, and only a leader has a
   * read round open, of its own term.
   */
  lemma LeadershipFlags(s: seq<Cluster>, actions: seq<Action>, k: nat, i: Id)
    requires Run(s, actions) && k < |s| && i in s[k].nodes
    ensures var n := s[k].nodes[i];
            && (n.currentTermCommitted <==> n.status == Leader && HeldTerm(n, n.commitIndex) == Some(n.currentTerm))
            && (n.activeRead.Some? ==> n.status == Leader && n.activeRead.value.term == n.currentTerm)
  {
    var gs := RunExplained(s, actions);
    Explained(s, gs, k, i);
    var g, n := gs[k], s[k].nodes[i];
    FlagMeans(g, i, n);
  }

  lemma FlagMeans(g: History, i: Id, n: N.Node)
    requires Inv(g) && Holds(g, i, n)
    ensures n.currentTermCommitted <==> n.status == Leader && HeldTerm(n, n.commitIndex) == Some(n.currentTerm)
    ensures n.activeRead.Some? ==> n.status == Leader && n.activeRead.value.term == n.currentTerm
  {
    HeldIs(g, i, n, n.commitIndex);
    if n.status == Leader { assert ReignOk(g, n.currentTerm); }
  }

  // ---------------------------------------------------------------- logs

  lemma SamePrefixHeld(g: History, h: History, i: Id, n: N.Node, j: Id, m: N.Node, x: int, top: int)
    requires Inv(g) && Holds(g, i, n) && Inv(h) && Holds(h, j, m)
    requires 0 <= top <= |g.log[i]| && top <= |h.log[j]| && g.log[i][..top] == h.log[j][..top]
    requires n.snapIndex < x <= top && m.snapIndex < x
    ensures Held(n, x).Some? && Held(n, x) == Held(m, x)
  {
    hide Coherent, Roles, QueueRel;
    HeldIs(g, i, n, x);
    HeldIs(h, j, m, x);
    assert g.log[i][..top][x - 1] == h.log[j][..top][x - 1];
  }

  /**
   * Log Matching: two logs, of any nodes at any times, with the same term at an index at or above both snapshot
   * points hold the same entries from the higher snapshot point up to it.
   */
  lemma LogMatching(s: seq<Cluster>, actions: seq<Action>, a: nat, b: nat, i: Id, j: Id, top: int)
    requires Run(s, actions) && a < |s| && b < |s| && i in s[a].nodes && j in s[b].nodes
    requires var n, m := s[a].nodes[i], s[b].nodes[j]; HeldTerm(n, top).Some? && HeldTerm(n, top) == HeldTerm(m, top)
    ensures var n, m := s[a].nodes[i], s[b].nodes[j];
            forall x | N.Max(n.snapIndex, m.snapIndex) < x <= top :: Held(n, x).Some? && Held(n, x) == Held(m, x)
  {
    hide Run, Coherent, Roles, QueueRel, LogRel;
    var gs := RunExplained(s, actions);
    Explained(s, gs, a, i);
    Explained(s, gs, b, j);
    var last := if a < b then b else a;
    Explained(s, gs, last, i) by { TopNodes(s, gs, a, b, last, i, j); }
    ChainExtends(s, gs, a, last);
    ChainExtends(s, gs, b, last);
    var n, m := s[a].nodes[i], s[b].nodes[j];
    HeldIs(gs[a], i, n, top);
    HeldIs(gs[b], j, m, top);
    LogsAgree(gs[a], gs[b], gs[last], i, j, top, n.snapIndex);
    forall x | N.Max(n.snapIndex, m.snapIndex) < x <= top ensures Held(n, x).Some? && Held(n, x) == Held(m, x) {
      SamePrefixHeld(gs[a], gs[b], i, n, j, m, x, top);
    }
  }

  /** Log Matching on the full logs of two times, judged by histories h that know of both. */
  lemma LogsAgree(g1: History, g2: History, h: History, i: Id, j: Id, top: int, low: int)
    requires Inv(g1) && Inv(g2) && DomainOk(h) && Extends(g1, h) && Extends(g2, h)
    requires i in g1.members && j in g2.members && 0 <= low <= top <= |g1.log[i]| && top <= |g2.log[j]|
    requires TermAt(g1.log[i], top) == TermAt(g2.log[j], top)
    ensures g1.log[i][..top] == g2.log[j][..top]
  {
    assert NodeOk(g1, i) && NodeOk(g2, j);
    LogOkGrows(g1, h, g1.log[i], g1.term[i]);
    LogOkGrows(g2, h, g2.log[j], g2.term[j]);
    SameTermSamePrefix(h, g1.log[i], g1.term[i], g2.log[j], g2.term[j], top);
  }

  /**
   * Leader Completeness: all that any node has committed, at any time, is in the log, or compacted away, of every node
   * that leads a later term, at whatever time, and of every node that leads the same term from then on.
   */
  lemma CommittedSurvives(s: seq<Cluster>, actions: seq<Action>, a: nat, i: Id, b: nat, j: Id, x: int)
    requires Run(s, actions) && a < |s| && b < |s| && i in s[a].nodes && j in s[b].nodes
    requires var n, m := s[a].nodes[i], s[b].nodes[j];
             && n.status == Leader && m.snapIndex < x <= m.commitIndex
             && (m.currentTerm < n.currentTerm || (m.currentTerm == n.currentTerm && b <= a))
    ensures var n, m := s[a].nodes[i], s[b].nodes[j];
            && m.commitIndex <= N.LastIndex(n)
            && (x <= n.snapIndex || (Held(n, x).Some? && Held(n, x) == Held(m, x)))
  {
    hide Run, Coherent, Roles, QueueRel, LogRel;
    var gs := RunExplained(s, actions);
    var n, m := s[a].nodes[i], s[b].nodes[j];
    Explained(s, gs, a, i);
    Explained(s, gs, b, j);
    var top := if a < b then b else a;
    Explained(s, gs, top, i) by { TopNodes(s, gs, a, b, top, i, j); }
    ChainExtends(s, gs, a, top);
    ChainExtends(s, gs, b, top);
    LeaderExtends(gs[a], gs[b], gs[top], i, n, j, m, top == a);
    HeldIs(gs[a], i, n, x);
    if n.snapIndex < x { SamePrefixHeld(gs[a], gs[b], i, n, j, m, x, m.commitIndex); }
  }

  /** g explains the leader n and f the other node; h knows of both. */
  lemma LeaderExtends(g: History, f: History, h: History, i: Id, n: N.Node, j: Id, m: N.Node, now: bool)
    requires Inv(g) && Holds(g, i, n) && n.status == Leader && Inv(f) && Holds(f, j, m)
    requires Inv(h) && Extends(g, h) && Extends(f, h) && (now ==> h == g)
    requires m.currentTerm < n.currentTerm || (m.currentTerm == n.currentTerm && now)
    ensures 0 <= m.commitIndex <= |g.log[i]| && m.commitIndex <= |f.log[j]|
    ensures g.log[i][..m.commitIndex] == f.log[j][..m.commitIndex]
  {
    assert NodeOk(f, j);
    var p := f.log[j][..m.commitIndex];
    SettledGrows(f, h, m.currentTerm, m.currentTerm, p);
    if m.currentTerm < n.currentTerm {
      LeaderHolds(g, h, i, n, m.currentTerm, p);
    } else {
      SettledInReign(h, m.currentTerm, p, n.currentTerm);
    }
  }

  /** A leader has what was settled in earlier terms, judged by histories h that may come later. */
  lemma LeaderHolds(g: History, h: History, i: Id, n: N.Node, t: int, p: seq<Entry>)
    requires Inv(g) && Holds(g, i, n) && n.status == Leader && Inv(h) && Extends(g, h)
    requires Settled(h, t, p) && t < n.currentTerm
    ensures p <= g.log[i]
  {
    if p != [] {
      var c :| c in h.commits && SettledBy(h, t, p, c);
      assert ReignGrows(g, h, n.currentTerm) && Certified(h, c) && ReignOk(g, n.currentTerm);
      LeaderCompleteness(h, c, n.currentTerm);
      PrefixChain(p, h.reign[c.term].log, c.index, g.reign[n.currentTerm].base, g.log[i]);
    }
  }

  /** In particular what a leader announces as committed, even if that leader is gone since. */
  lemma AnnouncedSurvives(s: seq<Cluster>, actions: seq<Action>, a: nat, b: nat, p: nat, e: Entry, i: Id)
    requires Run(s, actions) && a < |s| && b < |s| && p < |s[b].trace| && s[b].trace[p].output == Committed(e)
    requires i in s[a].nodes && s[a].nodes[i].status == Leader && e.term < s[a].nodes[i].currentTerm
    ensures e.index <= s[a].nodes[i].snapIndex || Held(s[a].nodes[i], e.index) == Some(e)
  {
    hide Run, Coherent, Roles, QueueRel, LogRel;
    var gs := RunExplained(s, actions);
    var n := s[a].nodes[i];
    Explained(s, gs, a, i);
    ExplainedEvent(s, gs, b, p);
    var top := if a < b then b else a;
    ChainExtends(s, gs, a, top);
    ChainExtends(s, gs, b, top);
    OutputGrows(gs[b], gs[top], s[b].trace[p].node, Committed(e));
    Explained(s, gs, top, i) by { ChainNodes(s, gs, a, top, i); }
    var log := AnnouncedSettled(gs[top], s[b].trace[p].node, e);
    LeaderHolds(gs[a], gs[top], i, n, e.term, log);
    HeldIs(gs[a], i, n, e.index);
  }

  lemma AnnouncedSettled(h: History, l: Id, e: Entry) returns (log: seq<Entry>)
    requires Inv(h) && OutputSound(h, l, Committed(e))
    ensures Settled(h, e.term, log) && |log| == e.index > 0 && log[e.index - 1] == e
  {
    log := h.reign[e.term].log[..e.index];
    assert SettledBy(h, e.term, log, Commit(e.term, e.index));
  }

  lemma ChainNodes(s: seq<Cluster>, gs: seq<History>, a: nat, b: nat, i: Id)
    requires Chain(s, gs) && a <= b < |s| && i in s[a].nodes
    ensures i in s[b].nodes
  {
    assert Explains(gs[a], s[a]) && Explains(gs[b], s[b]);
    ChainExtends(s, gs, a, b);
  }

  // ---------------------------------------------------------------- backtracking

  /** In a run a follower's snapshot point always agrees with the log of a leader that is not behind its term. */
  lemma SnapshotPointAgrees(s: seq<Cluster>, actions: seq<Action>, k: nat, l: Id, p: Id)
    requires Run(s, actions) && k < |s| && l in s[k].nodes && p in s[k].nodes
    requires s[k].nodes[l].status == Leader && s[k].nodes[p].currentTerm <= s[k].nodes[l].currentTerm
    ensures N.WellFormed(s[k].nodes[l]) && N.WellFormed(s[k].nodes[p])
    ensures s[k].nodes[p].commitIndex <= N.LastIndex(s[k].nodes[l])
    ensures B.SnapshotAgrees(s[k].nodes[l], s[k].nodes[p])
  {
    hide Run, Coherent, QueueRel;
    var gs := RunExplained(s, actions);
    Explained(s, gs, k, l);
    Explained(s, gs, k, p);
    ChainExtends(s, gs, k, k);
    SnapshotPoint(gs[k], l, s[k].nodes[l], p, s[k].nodes[p]);
  }

  lemma SnapshotPoint(g: History, l: Id, n: N.Node, p: Id, m: N.Node)
    requires Inv(g) && Extends(g, g) && Holds(g, l, n) && Holds(g, p, m) && n.status == Leader
    requires m.currentTerm <= n.currentTerm
    ensures m.commitIndex <= N.LastIndex(n) && B.SnapshotAgrees(n, m)
  {
    LeaderExtends(g, g, g, l, n, p, m, true);
    hide Coherent, Roles, QueueRel;
    HeldIs(g, l, n, m.snapIndex);
    LogFacts(g, l, n);
    if m.snapIndex > 0 {
      assert g.log[l][..m.commitIndex][m.snapIndex - 1] == g.log[p][..m.commitIndex][m.snapIndex - 1];
    }
  }

  /**
   * In a run, replication to a peer that is not past the leader's term and changes only by this exchange finds the
   * point where their logs join exactly under the condition CanJoin on their snapshot points.
   */
  lemma ReplicationJoinsIff(s: seq<Cluster>, actions: seq<Action>, k: nat, l: Id, p: Id)
    requires Run(s, actions) && k < |s| && l in s[k].nodes && p in s[k].nodes
    requires s[k].nodes[l].status == Leader && p in s[k].nodes[l].peers && p in s[k].nodes[l].nextIndex
    requires s[k].nodes[p].currentTerm <= s[k].nodes[l].currentTerm
    ensures var n, e := s[k].nodes[l], B.Exchange(s[k].nodes[l].nextIndex[p], s[k].nodes[p]);
            && B.Proper(n, p, e)
            && ((exists j: nat :: B.Joined(n, p, B.Attempts(n, p, e, j))) <==> B.CanJoin(n, p, e))
  {
    hide Run;
    SnapshotPointAgrees(s, actions, k, l, p);
    B.JoinsIff(s[k].nodes[l], p, B.Exchange(s[k].nodes[l].nextIndex[p], s[k].nodes[p]));
  }

  // ---------------------------------------------------------------- compaction

  /** As far as both nodes have committed, what m holds is in n's full log. */
  predicate FullHas(full: seq<Entry>, n: N.Node, m: N.Node) {
    forall x | m.snapIndex < x <= N.Min(n.commitIndex, m.commitIndex) ::
      1 <= x <= |full| && Held(m, x) == Some(full[x - 1])
  }

  /**
   * Every node keeps the tail of one full log: below its snapshot point that log holds what any node, at any time,
   * holds as committed there, and compacting the node further keeps it to the same full log.
   */
  lemma FullLog(s: seq<Cluster>, actions: seq<Action>, k: nat, i: Id) returns (full: seq<Entry>)
    requires Run(s, actions) && k < |s| && i in s[k].nodes
    ensures Compaction.KeepsTail(s[k].nodes[i], full)
    ensures forall b, j | 0 <= b < |s| && j in s[b].nodes :: FullHas(full, s[k].nodes[i], s[b].nodes[j])
    ensures k < |actions| && actions[k].Compact? && actions[k].node == i ==>
              i in s[k + 1].nodes && Compaction.KeepsTail(s[k + 1].nodes[i], full)
  {
    hide Coherent, Roles, QueueRel;
    var gs := RunExplained(s, actions);
    Explained(s, gs, k, i);
    full := gs[k].log[i];
    TailOfFull(gs[k], i, s[k].nodes[i]);
    forall b, j | 0 <= b < |s| && j in s[b].nodes ensures FullHas(full, s[k].nodes[i], s[b].nodes[j]) {
      CommittedInFull(s, gs, k, i, b, j);
    }
    if k < |actions| && actions[k].Compact? && actions[k].node == i {
      IndexSafety(s, actions, k);
      assert Next(s[k], actions[k], s[k + 1]);
      hide Next, N.DoSnapshot;
      CompactSameFull(s[k], i, actions[k].index, actions[k].data, full);
    }
  }

  lemma CompactSameFull(c: Cluster, i: Id, index: int, data: string, full: seq<Entry>)
    requires Possible(c, Compact(i, index, data)) && Safe(c, Compact(i, index, data))
    requires Compaction.KeepsTail(c.nodes[i], full)
    ensures var d := Step(c, Compact(i, index, data)); i in d.nodes && Compaction.KeepsTail(d.nodes[i], full)
  {
    Compaction.CompactionKeeps(Ready(c, i), full, index, data);
    hide N.DoSnapshot;
  }

  lemma TailOfFull(g: History, i: Id, n: N.Node)
    requires Inv(g) && Holds(g, i, n)
    ensures Compaction.KeepsTail(n, g.log[i])
  {
    assert NodeOk(g, i);
  }

  lemma CommittedInFull(s: seq<Cluster>, gs: seq<History>, a: nat, i: Id, b: nat, j: Id)
    requires Chain(s, gs) && a < |s| && b < |s| && i in s[a].nodes && j in s[b].nodes
    ensures i in gs[a].log && FullHas(gs[a].log[i], s[a].nodes[i], s[b].nodes[j])
  {
    hide Coherent, Roles, QueueRel;
    Explained(s, gs, a, i);
    Explained(s, gs, b, j);
    var top := if a < b then b else a;
    Explained(s, gs, top, i) by { TopNodes(s, gs, a, b, top, i, j); }
    ChainExtends(s, gs, a, top);
    ChainExtends(s, gs, b, top);
    var n, m := s[a].nodes[i], s[b].nodes[j];
    CommonCommitted(gs[a], gs[b], gs[top], i, j, N.Min(n.commitIndex, m.commitIndex));
    forall x | m.snapIndex < x <= N.Min(n.commitIndex, m.commitIndex)
      ensures 1 <= x <= |gs[a].log[i]| && Held(m, x) == Some(gs[a].log[i][x - 1])
    {
      HeldIs(gs[b], j, m, x);
      assert gs[a].log[i][..N.Min(n.commitIndex, m.commitIndex)][x - 1] == gs[b].log[j][x - 1];
    }
  }

  // ---------------------------------------------------------------- what is committed and applied

  /** Two commit points of any two nodes, at any two times, lie on one log. */
  lemma CommittedAgree(s: seq<Cluster>, actions: seq<Action>, a: nat, b: nat, i: Id, j: Id, x: int)
    requires Run(s, actions) && a < |s| && b < |s| && i in s[a].nodes && j in s[b].nodes
    requires var n, m := s[a].nodes[i], s[b].nodes[j];
             N.Max(n.snapIndex, m.snapIndex) < x <= N.Min(n.commitIndex, m.commitIndex)
    ensures Held(s[a].nodes[i], x).Some? && Held(s[a].nodes[i], x) == Held(s[b].nodes[j], x)
  {
    hide Run, Coherent, Roles, QueueRel;
    var gs := RunExplained(s, actions);
    Explained(s, gs, a, i);
    Explained(s, gs, b, j);
    var n, m := s[a].nodes[i], s[b].nodes[j];
    var top := if a < b then b else a;
    Explained(s, gs, top, i) by { TopNodes(s, gs, a, b, top, i, j); }
    ChainExtends(s, gs, a, top);
    ChainExtends(s, gs, b, top);
    CommonCommitted(gs[a], gs[b], gs[top], i, j, N.Min(n.commitIndex, m.commitIndex));
    SamePrefixHeld(gs[a], gs[b], i, n, j, m, x, N.Min(n.commitIndex, m.commitIndex));
  }

  lemma TopNodes(s: seq<Cluster>, gs: seq<History>, a: nat, b: nat, top: nat, i: Id, j: Id)
    requires Chain(s, gs) && a < |s| && b < |s| && top == (if a < b then b else a) && i in s[a].nodes && j in s[b].nodes
    ensures i in s[top].nodes && j in s[top].nodes
  {
    ChainNodes(s, gs, a, top, i);
    ChainNodes(s, gs, b, top, j);
  }

  /** Committed prefixes of two nodes agree, judged by histories h that know of both. */
  lemma CommonCommitted(g1: History, g2: History, h: History, i: Id, j: Id, top: int)
    requires Inv(g1) && Inv(g2) && Inv(h) && Extends(g1, h) && Extends(g2, h) && i in g1.members && j in g2.members
    requires 0 <= top <= g1.commit[i] && top <= g2.commit[j]
    ensures top <= |g1.log[i]| && top <= |g2.log[j]| && g1.log[i][..top] == g2.log[j][..top]
  {
    assert NodeOk(g1, i) && NodeOk(g2, j);
    var p, q := g1.log[i][..g1.commit[i]], g2.log[j][..g2.commit[j]];
    SettledGrows(g1, h, g1.term[i], g1.term[i], p);
    SettledGrows(g2, h, g2.term[j], g2.term[j], q);
    SettledAgree(h, g1.term[i], p, g2.term[j], q);
    assert p[..top] == g1.log[i][..top] && q[..top] == g2.log[j][..top];
  }

  /** State Machine Safety: whatever is pushed for an index, on any node at any time, has the same term and command. */
  lemma StateMachineSafety(s: seq<Cluster>, actions: seq<Action>, k: nat, p: nat, q: nat)
    requires Run(s, actions) && k < |s| && p < |s[k].trace| && q < |s[k].trace|
    requires s[k].trace[p].output.Apply? && s[k].trace[q].output.Apply?
    requires s[k].trace[p].output.msg.index == s[k].trace[q].output.msg.index
    ensures var m, m' := s[k].trace[p].output.msg, s[k].trace[q].output.msg;
            m.term == m'.term && (m.CommandMsg? && m'.CommandMsg? ==> m.command == m'.command)
  {
    hide Run, Coherent;
    var gs := RunExplained(s, actions);
    ExplainedEvent(s, gs, k, p);
    ExplainedEvent(s, gs, k, q);
    SameMessage(gs[k], s[k].trace[p].output.msg, s[k].trace[q].output.msg);
  }

  lemma SameMessage(g: History, m: ApplyMsg, m': ApplyMsg)
    requires Inv(g) && MsgSound(g, m) && MsgSound(g, m') && m.index == m'.index
    ensures m.term == m'.term && (m.CommandMsg? && m'.CommandMsg? ==> m.command == m'.command)
  {
    var c := MsgCommit(g, m);
    var d := MsgCommit(g, m');
    CommitsAgree(g, c, d, m.index);
  }

  ghost predicate MsgIn(g: History, m: ApplyMsg, c: Commit) {
    CommittedEntry(g, m.term, m.index, c)
    && (m.CommandMsg? ==> g.reign[c.term].log[m.index - 1].command == m.command)
  }

  lemma MsgCommit(g: History, m: ApplyMsg) returns (c: Commit)
    requires MsgSound(g, m)
    ensures MsgIn(g, m, c)
  {
    match m
    case CommandMsg(command, index, term) =>
      c :| CommittedEntry(g, term, index, c) && g.reign[c.term].log[index - 1] == Entry(term, index, command);
    case SnapshotMsg(_, index, term) =>
      c :| CommittedEntry(g, term, index, c);
  }

  /** Below both commit points two leaders' logs are the same. */
  lemma CommitsAgree(g: History, c: Commit, d: Commit, index: int)
    requires Inv(g) && c in g.commits && d in g.commits && c.term in g.reign && d.term in g.reign
    requires 1 <= index <= c.index <= |g.reign[c.term].log| && index <= d.index <= |g.reign[d.term].log|
    ensures g.reign[c.term].log[index - 1] == g.reign[d.term].log[index - 1]
  {
    var a, b := g.reign[c.term].log[..index], g.reign[d.term].log[..index];
    assert SettledBy(g, c.term, a, c) && SettledBy(g, d.term, b, d);
    SettledAgree(g, c.term, a, d.term, b);
    assert a[index - 1] == b[index - 1];
  }

  /** A command pushed for the index and term that Start returned is the command Start was given. */
  lemma StartedIsApplied(s: seq<Cluster>, actions: seq<Action>, k: nat, p: nat, e: Entry, q: nat)
    requires Run(s, actions) && k < |s| && p < |s[k].trace| && q < |s[k].trace|
    requires s[k].trace[p].output == Started(e) && s[k].trace[q].output.Apply?
    requires var m := s[k].trace[q].output.msg; m.CommandMsg? && m.index == e.index && m.term == e.term
    ensures s[k].trace[q].output.msg.command == e.command
  {
    hide Run, Coherent;
    var gs := RunExplained(s, actions);
    ExplainedEvent(s, gs, k, p);
    ExplainedEvent(s, gs, k, q);
    StartedCommand(gs[k], e, s[k].trace[q].output.msg);
  }

  lemma StartedCommand(g: History, e: Entry, m: ApplyMsg)
    requires Inv(g) && InReign(g, e) && MsgSound(g, m) && m.CommandMsg? && m.index == e.index && m.term == e.term
    ensures m.command == e.command
  {
    var c :| CommittedEntry(g, m.term, m.index, c)
             && g.reign[c.term].log[m.index - 1] == Entry(m.term, m.index, m.command);
    assert ReignOk(g, c.term);
    var log := g.reign[c.term].log;
    assert Anchored(g, log, m.index - 1);
    assert log[..m.index][m.index - 1] == g.reign[e.term].log[..m.index][m.index - 1];
  }

  /** No two calls of Start return the same index and term. */
  lemma StartedOnce(s: seq<Cluster>, actions: seq<Action>, k: nat, p: nat, d: Entry, q: nat, e: Entry)
    requires Run(s, actions) && k < |s| && p < |s[k].trace| && q < |s[k].trace|
    requires s[k].trace[p].output == Started(d) && s[k].trace[q].output == Started(e)
    requires d.term == e.term && d.index == e.index
    ensures p == q
  {
    var gs := RunExplained(s, actions);
    assert Explains(gs[k], s[k]);
    assert StartedAt(s[k].trace, p, d) && StartedAt(s[k].trace, q, e);
  }

  // ---------------------------------------------------------------- replication

  /** Every append request carries a commit index that the entries it brings, or their predecessor, reach. */
  lemma SentCommitCovered(s: seq<Cluster>, actions: seq<Action>, k: nat, p: nat)
    requires Run(s, actions) && k < |s| && p < |s[k].trace|
    requires var o := s[k].trace[p].output; o.Send? && o.request.AppendEntries? && o.request.append.readRound == None
    ensures var a := s[k].trace[p].output.request.append;
            N.AppendOk(a) && 0 <= a.leaderCommit <= a.prevIndex + |a.entries|
  {
    var gs := RunExplained(s, actions);
    ExplainedEvent(s, gs, k, p);
  }

  /** So a follower that takes such a request commits nothing but what it has just matched or committed before. */
  lemma FollowerCommitMatched(n: N.Node, a: AppendArgs)
    requires N.WellFormed(n) && n.status == Follower && N.AppendOk(a) && a.leaderCommit <= a.prevIndex + |a.entries|
    requires N.Matches(n, a.prevIndex, a.prevTerm)
    ensures N.FollowAppend(n, a).0.commitIndex == N.Max(n.commitIndex, a.leaderCommit)
  {
    N.LastIndexIs(N.StoreEntries(n, a));
  }

  /**
   * updateCommitIndex moves to the greatest index above the commit point that is of the leader's term and that
   * matchIndex credits to enough distinct peers, and stays if there is none.
   */
  lemma UpdateCommitGreatest(n: N.Node) returns (stored: set<Id>)
    requires N.WellFormed(n)
    ensures var r := N.UpdateCommit(n).commitIndex;
            && (r == n.commitIndex
                || (n.commitIndex < r <= N.LastIndex(n) && N.TermOf(n, r) == n.currentTerm
                    && |stored| + 1 >= N.Quorum(n)))
            && (forall p | p in stored :: p in n.peers && n.matchIndex[p] >= r)
            && (forall i | r < i <= N.LastIndex(n) :: !N.Committable(n, i))
  {
    N.LastIndexIs(n);
    var r := N.CommitScan(n, N.LastIndex(n));
    stored := if r == n.commitIndex then {} else CreditedAmong(n, r, |n.peers|);
    CreditedSize(n, r, |n.peers|);
  }

  /** What a node has acknowledged in a term, it acknowledged while it was in that term. */
  lemma {:induction false} AckHappened(s: seq<Cluster>, gs: seq<History>, k: nat, v: Id, t: int, m: int)
    returns (j: nat)
    requires Chain(s, gs) && k < |s| && 1 <= m <= Acked(gs[k], v, t)
    ensures j <= k && v in s[j].nodes && s[j].nodes[v].currentTerm == t && m <= Acked(gs[j], v, t)
    decreases k
  {
    hide Coherent, Extends;
    assert Explains(gs[k], s[k]) && k != 0;
    if m <= Acked(gs[k - 1], v, t) {
      j := AckHappened(s, gs, k - 1, v, t, m);
    } else {
      assert Successive(gs[k - 1], gs[k]);
      j := k;
      assert Holds(gs[k], v, s[k].nodes[v]);
    }
  }

  /** Node p of state j has the log of its term's leader as far as it acknowledged it; h may come later. */
  lemma AckedPrefix(g: History, h: History, p: Id, m: N.Node, top: int)
    requires Inv(g) && Holds(g, p, m) && Inv(h) && Extends(g, h)
    requires 1 <= top <= Acked(g, p, m.currentTerm)
    ensures m.currentTerm in h.reign && top <= |h.reign[m.currentTerm].log| && top <= |g.log[p]|
    ensures h.reign[m.currentTerm].log[..top] == g.log[p][..top]
  {
    var t := m.currentTerm;
    assert AckOk(g, Ballot(p, t)) && Stored(g, p) && ReignGrows(g, h, t);
    var own := g.reign[t].log[..Acked(g, p, t)];
    assert own[..top] == h.reign[t].log[..top] && own[..top] == g.log[p][..top];
  }

  /**
   * Replication accounting: when matchIndex puts a peer above the leader's commit point, the peer, at some time and in
   * the leader's term, had the leader's log up to there, and it still has if it is still in that term.
   */
  lemma MatchIsStored(s: seq<Cluster>, actions: seq<Action>, k: nat, l: Id, p: Id) returns (j: nat)
    requires Run(s, actions) && k < |s| && l in s[k].nodes && p in s[k].nodes
    requires s[k].nodes[l].status == Leader && p in s[k].nodes[l].peers && p in s[k].nodes[l].matchIndex
    requires s[k].nodes[l].matchIndex[p] > s[k].nodes[l].commitIndex
    ensures j <= k && p in s[j].nodes && s[j].nodes[p].currentTerm == s[k].nodes[l].currentTerm
    ensures s[k].nodes[p].currentTerm == s[k].nodes[l].currentTerm ==> j == k
    ensures var n, m := s[k].nodes[l], s[j].nodes[p];
            && n.matchIndex[p] <= N.LastIndex(m) && n.matchIndex[p] <= N.LastIndex(n)
            && forall x | N.Max(n.snapIndex, m.snapIndex) < x <= n.matchIndex[p] ::
                 Held(n, x).Some? && Held(n, x) == Held(m, x)
  {
    hide Run, Coherent, QueueRel, LogRel;
    var gs := RunExplained(s, actions);
    Explained(s, gs, k, l);
    Explained(s, gs, k, p);
    var g, n := gs[k], s[k].nodes[l];
    MatchAcked(g, l, n, p);
    j := k;
    if s[k].nodes[p].currentTerm != n.currentTerm {
      j := AckHappened(s, gs, k, p, n.currentTerm, n.matchIndex[p]);
    }
    Explained(s, gs, j, p);
    ChainExtends(s, gs, j, k);
    var m := s[j].nodes[p];
    HeldIs(g, l, n, 0);
    HeldIs(gs[j], p, m, 0);
    AckedPrefix(gs[j], g, p, m, n.matchIndex[p]);
    forall x | N.Max(n.snapIndex, m.snapIndex) < x <= n.matchIndex[p]
      ensures Held(n, x).Some? && Held(n, x) == Held(m, x)
    {
      SamePrefixHeld(g, gs[j], l, n, p, m, x, n.matchIndex[p]);
    }
  }

  lemma MatchAcked(g: History, l: Id, n: N.Node, p: Id)
    requires Inv(g) && Holds(g, l, n) && n.status == Leader && p in n.peers && n.matchIndex[p] > n.commitIndex
    ensures 1 <= n.matchIndex[p] <= Acked(g, p, n.currentTerm)
    ensures n.currentTerm in g.reign && g.reign[n.currentTerm].log == g.log[l]
  {
    assert Accounted(g, n, p);
  }

  /** n is in the term of e and has stored it, though it may have compacted it away. */
  predicate HasStored(n: N.Node, e: Entry) {
    n.currentTerm == e.term && e.index <= N.LastIndex(n) && (e.index <= n.snapIndex || Held(n, e.index) == Some(e))
  }

  /** Was there a time up to k when node v had stored e, in its term? */
  predicate StoredOnce(s: seq<Cluster>, k: nat, v: Id, e: Entry) {
    exists j :: 0 <= j <= k && j < |s| && v in s[j].nodes && HasStored(s[j].nodes[v], e)
  }

  lemma AckedStoredOnce(s: seq<Cluster>, gs: seq<History>, k: nat, v: Id, e: Entry)
    requires Chain(s, gs) && k < |s| && DomainOk(gs[k]) && InReign(gs[k], e) && RealAck(gs[k], v, e.term, e.index)
    ensures StoredOnce(s, k, v, e)
  {
    hide Chain, Coherent, QueueRel, LogRel, Roles;
    var j := AckHappened(s, gs, k, v, e.term, e.index);
    Explained(s, gs, j, v);
    KnownInv(s, gs, k);
    ChainExtends(s, gs, j, k);
    AckedPrefix(gs[j], gs[k], v, s[j].nodes[v], e.index);
    HeldIs(gs[j], v, s[j].nodes[v], e.index);
    assert gs[k].reign[e.term].log[..e.index][e.index - 1] == gs[j].log[v][..e.index][e.index - 1];
    assert HasStored(s[j].nodes[v], e);
  }

  lemma KnownInv(s: seq<Cluster>, gs: seq<History>, k: nat)
    requires Chain(s, gs) && k < |s|
    ensures |gs| == |s| && Inv(gs[k]) && NodesOk(s[k], gs[k])
  {
    assert Explains(gs[k], s[k]);
  }

  lemma SameMembers(c: Cluster, g: History)
    requires DomainOk(g) && NodesOk(c, g)
    ensures c.nodes.Keys == g.members
  {
    forall i ensures i in c.nodes.Keys <==> i in g.members {
      assert i in c.nodes <==> i in g.members;
    }
  }

  /** The commit rule: whatever a leader announces as committed, a quorum really stored while in the leader's term. */
  lemma CommitIsStored(s: seq<Cluster>, actions: seq<Action>, k: nat, q: nat, e: Entry) returns (quorum: set<Id>)
    requires Run(s, actions) && k < |s| && q < |s[k].trace| && s[k].trace[q].output == Committed(e)
    ensures IsQuorum(s[k].nodes.Keys, quorum) && forall v | v in quorum :: StoredOnce(s, k, v, e)
  {
    hide Run, StoredOnce;
    var gs := RunExplained(s, actions);
    ExplainedEvent(s, gs, k, q);
    KnownInv(s, gs, k);
    var g, l := gs[k], s[k].trace[q].node;
    hide Chain;
    quorum := CommitQuorum(g, l, e);
    SameMembers(s[k], g);
    forall v | v in quorum ensures StoredOnce(s, k, v, e) {
      AckedStoredOnce(s, gs, k, v, e);
    }
  }

  lemma CommitQuorum(g: History, l: Id, e: Entry) returns (quorum: set<Id>)
    requires Inv(g) && OutputSound(g, l, Committed(e))
    ensures IsQuorum(g.members, quorum) && AckedBy(g, quorum, e.term, e.index) && InReign(g, e)
  {
    assert Certified(g, Commit(e.term, e.index));
    quorum :| IsQuorum(g.members, quorum) && AckedBy(g, quorum, e.term, e.index);
  }

  // ---------------------------------------------------------------- reads

  /**
   * ReadIndex freshness: a round that completes with success was opened earlier by the same node, and its index is
   * at least that of everything any leader had committed before it was opened.
   */
  lemma ReadIndexFresh(s: seq<Cluster>, actions: seq<Action>, k: nat, j: nat) returns (p: nat, t: int)
    requires Run(s, actions) && k < |s| && j < |s[k].trace| && s[k].trace[j].output.Answer? && s[k].trace[j].output.ok
    ensures var o := s[k].trace[j].output;
            && p < j && o.round >= 0 && s[k].trace[p] == Event(s[k].trace[j].node, Opened(t, o.round, o.readIndex))
            && forall q | 0 <= q < p && s[k].trace[q].output.Committed? ::
                 s[k].trace[q].output.entry.index <= o.readIndex
  {
    hide Run, Coherent;
    var gs := RunExplained(s, actions);
    var trace, o := s[k].trace, s[k].trace[j].output;
    assert Explains(gs[k], s[k]);
    assert AnswerAt(trace, j, o.round, o.readIndex);
    var x, r :| AnsweredFrom(trace, gs[k], j, x, r);
    p, t := x, r.term;
  }

  // ---------------------------------------------------------------- replica agreement

  /** A queue without snapshot messages whose first command is the first of the log. */
  predicate FromTheStart(n: N.Node) {
    NoSnapshots(n.applyQueue) && (n.applyQueue != [] ==> n.applyQueue[0].index == 1)
  }

  predicate Consecutive(q: seq<ApplyMsg>) {
    forall x | 0 <= x < |q| :: q[x].index == q[0].index + x
  }

  /**
   * Two apply queues without snapshot messages, of any nodes at any times, count their indexes upwards and have the
   * same command wherever both have an index.  If both start with the first command, one extends the other.
   */
  lemma ReplicaQueuesAgree(s: seq<Cluster>, actions: seq<Action>, a: nat, b: nat, i: Id, j: Id)
    requires Run(s, actions) && a < |s| && b < |s| && i in s[a].nodes && j in s[b].nodes
    requires NoSnapshots(s[a].nodes[i].applyQueue) && NoSnapshots(s[b].nodes[j].applyQueue)
    ensures var q, r := s[a].nodes[i].applyQueue, s[b].nodes[j].applyQueue;
            && Consecutive(q) && Consecutive(r)
            && (forall x, y | 0 <= x < |q| && 0 <= y < |r| && q[x].index == r[y].index :: q[x] == r[y])
            && (FromTheStart(s[a].nodes[i]) && FromTheStart(s[b].nodes[j]) ==> q <= r || r <= q)
  {
    hide Run, Coherent, Roles;
    var gs := RunExplained(s, actions);
    Explained(s, gs, a, i);
    Explained(s, gs, b, j);
    var top := if a < b then b else a;
    Explained(s, gs, top, i) by { TopNodes(s, gs, a, b, top, i, j); }
    ChainExtends(s, gs, a, top);
    ChainExtends(s, gs, b, top);
    var n, m := s[a].nodes[i], s[b].nodes[j];
    QueueIsStretch(gs[a], i, n);
    QueueIsStretch(gs[b], j, m);
    CommonCommitted(gs[a], gs[b], gs[top], i, j, N.Min(gs[a].commit[i], gs[b].commit[j]));
    SameCommands(gs[a].log[i], gs[b].log[j], n.applyQueue, gs[a].commit[i], m.applyQueue, gs[b].commit[j]);
  }

  /** Every message of q is the entry of its index in the log, up to the commit point. */
  ghost predicate StretchOf(q: seq<ApplyMsg>, log: seq<Entry>, commit: int) {
    forall x | 0 <= x < |q| ::
      && q[x].index == q[0].index + x && 1 <= q[x].index <= commit && q[x].index <= |log|
      && q[x] == CommandMsg(log[q[x].index - 1].command, q[x].index, log[q[x].index - 1].term)
  }

  lemma QueueIsStretch(g: History, i: Id, n: N.Node)
    requires Inv(g) && Holds(g, i, n) && NoSnapshots(n.applyQueue)
    ensures i in g.log && i in g.commit && 0 <= g.commit[i] <= |g.log[i]|
    ensures StretchOf(n.applyQueue, g.log[i], g.commit[i])
  {
    assert NodeOk(g, i);
    var q, low := n.applyQueue, n.lastApplied - |n.applyQueue|;
    forall x | 0 <= x < |q| ensures q[x].index == low + x + 1
      && q[x] == CommandMsg(g.log[i][low + x].command, low + x + 1, g.log[i][low + x].term)
    {
      assert g.log[i][low..n.lastApplied][x] == g.log[i][low + x];
    }
  }

  lemma SameCommands(a: seq<Entry>, b: seq<Entry>, q: seq<ApplyMsg>, c: int, r: seq<ApplyMsg>, d: int)
    requires StretchOf(q, a, c) && StretchOf(r, b, d) && 0 <= c <= |a| && 0 <= d <= |b|
    requires a[..N.Min(c, d)] == b[..N.Min(c, d)]
    ensures Consecutive(q) && Consecutive(r)
    ensures forall x, y | 0 <= x < |q| && 0 <= y < |r| && q[x].index == r[y].index :: q[x] == r[y]
    ensures (q != [] ==> q[0].index == 1) && (r != [] ==> r[0].index == 1) ==> q <= r || r <= q
  {
    forall x, y | 0 <= x < |q| && 0 <= y < |r| && q[x].index == r[y].index ensures q[x] == r[y] {
      assert a[..N.Min(c, d)][q[x].index - 1] == b[..N.Min(c, d)][q[x].index - 1];
    }
  }
}
