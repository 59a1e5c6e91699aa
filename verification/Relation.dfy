/**
 * What a node's fields, the messages it sent and the answers it gave mean in terms of the histories, and why those
 * meanings survive the steps of other nodes.
 */
module Relation {
  import opened Types
  import opened History
  import opened Steps
  import N = Node

  // ---------------------------------------------------------------- a node's fields

  ghost predicate IdentityOk(g: History, i: Id, n: N.Node) {
    && n.id == i && i in g.members
    && g.members == {i} + (set p | p in n.peers)
  }

  /** The compacted log is the tail of the full one, and everything up to the commit point has been applied. */
  ghost predicate LogRel(g: History, i: Id, n: N.Node)
    requires DomainOk(g) && i in g.members
  {
    && n.currentTerm == g.term[i]
    && 0 <= n.snapIndex <= n.commitIndex <= |g.log[i]|
    && n.logs == g.log[i][n.snapIndex..]
    && n.snapTerm == TermAt(g.log[i], n.snapIndex)
    && n.commitIndex == n.lastApplied == g.commit[i]
  }

  ghost predicate VoteRel(g: History, i: Id, n: N.Node) {
    if n.votedFor == NO_VOTE then Ballot(i, n.currentTerm) !in g.vote
    else Ballot(i, n.currentTerm) in g.vote && g.vote[Ballot(i, n.currentTerm)] == n.votedFor
  }

  predicate NoSnapshots(q: seq<ApplyMsg>) {
    forall j | 0 <= j < |q| :: q[j].CommandMsg?
  }

  /** Without snapshot messages the apply queue of a running node is a contiguous stretch of its committed log. */
  ghost predicate QueueRel(g: History, i: Id, n: N.Node)
    requires DomainOk(g) && i in g.members
  {
    NoSnapshots(n.applyQueue) ==>
      && |n.applyQueue| <= n.lastApplied <= |g.log[i]|
      && n.applyQueue == N.CommandsOf(g.log[i][n.lastApplied - |n.applyQueue|..n.lastApplied])
  }

  ghost predicate Body(g: History, i: Id, n: N.Node)
    requires DomainOk(g)
  {
    && N.WellFormed(n)
    && IdentityOk(g, i, n)
    && LogRel(g, i, n)
    && VoteRel(g, i, n)
    && QueueRel(g, i, n)
    && n.disk.state == N.PersistentOf(n)
  }

  /** The fields Body speaks of. */
  predicate SameBody(n: N.Node, m: N.Node) {
    && m.id == n.id && m.peers == n.peers && m.currentTerm == n.currentTerm && m.votedFor == n.votedFor
    && m.logs == n.logs && m.snapIndex == n.snapIndex && m.snapTerm == n.snapTerm
    && m.commitIndex == n.commitIndex && m.lastApplied == n.lastApplied
    && m.disk == n.disk && m.applyQueue == n.applyQueue
  }

  lemma BodyKept(g: History, i: Id, n: N.Node, m: N.Node)
    requires DomainOk(g) && Body(g, i, n) && SameBody(n, m) && N.WellFormed(m)
    ensures Body(g, i, m)
  {
  }

  lemma BodyGrows(g: History, h: History, i: Id, n: N.Node)
    requires DomainOk(g) && DomainOk(h) && Body(g, i, n) && h.members == g.members
    requires h.term[i] == g.term[i] && h.log[i] == g.log[i] && h.commit[i] == g.commit[i]
    requires Ballot(i, n.currentTerm) in h.vote <==> Ballot(i, n.currentTerm) in g.vote
    requires Ballot(i, n.currentTerm) in g.vote ==>
      h.vote[Ballot(i, n.currentTerm)] == g.vote[Ballot(i, n.currentTerm)]
    ensures Body(h, i, n)
  {
  }

  /** A candidate's count is the number of distinct nodes that voted for it. */
  ghost predicate CandidateRel(g: History, i: Id, n: N.Node)
    requires DomainOk(g) && i in g.members
  {
    var b := Ballot(i, n.currentTerm);
    n.status == Candidate ==>
      && n.electionTerm == n.currentTerm
      && b in g.stand && g.stand[b] == g.log[i]
      && (n.currentTerm in g.reign ==> g.reign[n.currentTerm].leader != i)
      && n.votesGranted == |g.tally[i]| && i in g.tally[i] && g.tally[i] <= g.members
      && (forall v | v in g.tally[i] ::
            Ballot(v, n.currentTerm) in g.vote && g.vote[Ballot(v, n.currentTerm)] == i)
  }

  /** Replication accounting: above the commit point matchIndex is what the peer really stored in this term. */
  ghost predicate Accounted(g: History, n: N.Node, p: Id)
    requires p in n.matchIndex
  {
    n.matchIndex[p] <= n.commitIndex || n.matchIndex[p] <= Acked(g, p, n.currentTerm)
  }

  ghost predicate LeaderRel(g: History, i: Id, n: N.Node)
    requires DomainOk(g) && i in g.members && N.PeersOk(n)
  {
    n.status == Leader ==>
      && Rules(g, i) && n.currentTerm == g.term[i]
      && Acked(g, i, n.currentTerm) == |g.log[i]|
      && (forall p | p in n.peers :: Accounted(g, n, p))
      && (forall c | c in g.commits && c.term == n.currentTerm :: c.index <= n.commitIndex)
      && (forall r | r in g.rounds && r.term == n.currentTerm :: r.number <= n.readIndexRound)
  }

  /** v answered round r in the leader's term, so it is in no quorum of a later term that committed before r. */
  ghost predicate AckFresh(g: History, r: Round, v: Id)
    requires r in g.rounds
  {
    forall c | c in g.rounds[r].before && c.term > r.term :: c.term in g.reign && v !in g.reign[c.term].quorum
  }

  ghost predicate ReadRel(g: History, i: Id, n: N.Node)
    requires DomainOk(g) && i in g.members
  {
    match n.activeRead
    case None => true
    case Some(a) =>
      && n.status == Leader && a.term == n.currentTerm && a.number > 0
      && Round(a.term, a.number) in g.rounds
      && g.rounds[Round(a.term, a.number)].readIndex == a.readIndex
      && a.acks <= g.members
      && forall v | v in a.acks :: AckFresh(g, Round(a.term, a.number), v)
  }

  ghost predicate FlagRel(g: History, n: N.Node) {
    n.currentTermCommitted <==>
      n.status == Leader && n.currentTerm in g.reign && |g.reign[n.currentTerm].base| < n.commitIndex
  }

  ghost predicate Roles(g: History, i: Id, n: N.Node)
    requires DomainOk(g) && i in g.members && N.PeersOk(n)
  {
    CandidateRel(g, i, n) && LeaderRel(g, i, n) && ReadRel(g, i, n) && FlagRel(g, n)
  }

  ghost predicate Holds(g: History, i: Id, n: N.Node)
    requires DomainOk(g)
  {
    Body(g, i, n) && Roles(g, i, n)
  }

  // ---------------------------------------------------------------- what was sent, applied and answered

  ghost predicate VoteSound(g: History, i: Id, a: VoteArgs) {
    && a.candidate == i && Ballot(i, a.term) in g.stand
    && a.lastIndex == |g.stand[Ballot(i, a.term)]| && a.lastTerm == LastTerm(g.stand[Ballot(i, a.term)])
  }

  ghost predicate Leads(g: History, i: Id, t: int) {
    t in g.reign && g.reign[t].leader == i
  }

  /** Entries are a stretch of the leader's log, and the commit index it sends does not reach beyond them. */
  ghost predicate AppendSound(g: History, i: Id, a: AppendArgs) {
    && a.leader == i && Leads(g, i, a.term)
    && match a.readRound
       case Some(r) =>
         a.entries == [] && a.prevIndex <= |g.reign[a.term].log| && r > 0 && Round(a.term, r) in g.rounds
       case None =>
         var log := g.reign[a.term].log;
         && N.AppendOk(a)
         && 0 <= a.prevIndex && a.prevIndex + |a.entries| <= |log|
         && a.entries == log[a.prevIndex..a.prevIndex + |a.entries|]
         && a.prevTerm == TermAt(log, a.prevIndex)
         && 0 <= a.leaderCommit <= a.prevIndex + |a.entries|
         && Settled(g, a.term, log[..a.leaderCommit])
  }

  ghost predicate SnapshotSound(g: History, i: Id, a: SnapshotArgs) {
    && a.leader == i && Leads(g, i, a.term)
    && 1 <= a.lastIndex <= |g.reign[a.term].log|
    && a.lastTerm == TermAt(g.reign[a.term].log, a.lastIndex)
    && Settled(g, a.term, g.reign[a.term].log[..a.lastIndex])
  }

  ghost predicate RequestSound(g: History, i: Id, r: Request) {
    match r
    case RequestVote(a) => VoteSound(g, i, a)
    case PreVote(_, _) => true
    case AppendEntries(a) => AppendSound(g, i, a)
    case InstallSnapshot(a) => SnapshotSound(g, i, a)
  }

  /** e is an entry below some leader's commit point. */
  ghost predicate CommittedEntry(g: History, term: int, index: int, c: Commit) {
    && c in g.commits && c.term in g.reign && 1 <= index <= c.index <= |g.reign[c.term].log|
    && g.reign[c.term].log[index - 1].term == term
  }

  ghost predicate MsgSound(g: History, m: ApplyMsg) {
    match m
    case CommandMsg(command, index, term) =>
      exists c :: CommittedEntry(g, term, index, c) && g.reign[c.term].log[index - 1] == Entry(term, index, command)
    case SnapshotMsg(_, index, term) => exists c :: CommittedEntry(g, term, index, c)
  }

  /** Round r was confirmed: its index covers everything committed before it was opened. */
  ghost predicate Confirmed(g: History, i: Id, r: Round, readIndex: int) {
    && r in g.rounds && Leads(g, i, r.term) && g.rounds[r].readIndex == readIndex
    && forall c | c in g.rounds[r].before :: c.index <= readIndex
  }

  ghost predicate InReign(g: History, e: Entry) {
    e.term in g.reign && 1 <= e.index <= |g.reign[e.term].log| && g.reign[e.term].log[e.index - 1] == e
  }

  ghost predicate OutputSound(g: History, i: Id, o: Output) {
    match o
    case Send(to, request) => to in g.members && to != i && RequestSound(g, i, request)
    case Apply(msg) => MsgSound(g, msg)
    case Answer(_, ok, round, readIndex) =>
      ok ==> round >= 0 && exists t :: Confirmed(g, i, Round(t, round), readIndex)
    case Started(e) => Leads(g, i, e.term) && InReign(g, e)
    case Elected(t) => Leads(g, i, t)
    case Committed(e) => Leads(g, i, e.term) && InReign(g, e) && Commit(e.term, e.index) in g.commits
    case Opened(t, round, readIndex) =>
      Leads(g, i, t) && Round(t, round) in g.rounds && g.rounds[Round(t, round)].readIndex == readIndex
  }

  ghost predicate OutSound(g: History, i: Id, out: seq<Output>) {
    forall j {:trigger OutputSound(g, i, out[j])} | 0 <= j < |out| :: OutputSound(g, i, out[j])
  }

  ghost predicate Good(g: History, i: Id, n: N.Node)
    requires DomainOk(g)
  {
    Holds(g, i, n) && OutSound(g, i, n.out)
  }

  ghost predicate ReplySound(g: History, to: Id, request: Request, reply: Reply) {
    match request
    case RequestVote(a) =>
      reply.VoteAnswer? && (reply.vote.granted ==>
        reply.vote.term == a.term && Ballot(to, a.term) in g.vote && g.vote[Ballot(to, a.term)] == a.candidate)
    case PreVote(_, _) => reply.PreVoteAnswer?
    case AppendEntries(a) =>
      reply.AppendAnswer? && (reply.append.success ==>
        && reply.append.term == a.term
        && reply.append.readRound == a.readRound
        && match a.readRound
           case None => a.prevIndex + |a.entries| <= Acked(g, to, a.term)
           case Some(r) => Round(a.term, r) in g.rounds && AckFresh(g, Round(a.term, r), to))
    case InstallSnapshot(_) => reply.SnapshotAnswer?
  }

  // ---------------------------------------------------------------- growth

  lemma RequestGrows(g: History, h: History, i: Id, r: Request)
    requires DomainOk(g) && DomainOk(h) && Extends(g, h) && RequestSound(g, i, r)
    ensures RequestSound(h, i, r)
  {
    match r
    case RequestVote(a) =>
    case PreVote(_, _) =>
    case AppendEntries(a) =>
      assert ReignGrows(g, h, a.term);
      if a.readRound.None? {
        PrefixFacts(g.reign[a.term].log, h.reign[a.term].log, a.prevIndex, a.prevIndex + |a.entries|, a.leaderCommit);
        SettledGrows(g, h, a.term, a.term, g.reign[a.term].log[..a.leaderCommit]);
      }
    case InstallSnapshot(a) =>
      assert ReignGrows(g, h, a.term);
      PrefixFacts(g.reign[a.term].log, h.reign[a.term].log, a.lastIndex, a.lastIndex, a.lastIndex);
      SettledGrows(g, h, a.term, a.term, g.reign[a.term].log[..a.lastIndex]);
  }

  lemma PrefixFacts(a: seq<Entry>, b: seq<Entry>, lo: int, hi: int, m: int)
    requires a <= b && 0 <= lo <= hi <= |a| && 0 <= m <= |a|
    ensures a[lo..hi] == b[lo..hi] && a[..m] == b[..m] && TermAt(a, lo) == TermAt(b, lo)
  {
  }

  lemma MsgGrows(g: History, h: History, m: ApplyMsg)
    requires DomainOk(g) && DomainOk(h) && Extends(g, h) && MsgSound(g, m)
    ensures MsgSound(h, m)
  {
    match m
    case CommandMsg(command, index, term) =>
      var c :| CommittedEntry(g, term, index, c) && g.reign[c.term].log[index - 1] == Entry(term, index, command);
      assert ReignGrows(g, h, c.term);
      assert CommittedEntry(h, term, index, c);
    case SnapshotMsg(_, index, term) =>
      var c :| CommittedEntry(g, term, index, c);
      assert ReignGrows(g, h, c.term);
      assert CommittedEntry(h, term, index, c);
  }

  lemma OutputGrows(g: History, h: History, i: Id, o: Output)
    requires DomainOk(g) && DomainOk(h) && Extends(g, h) && OutputSound(g, i, o)
    ensures OutputSound(h, i, o)
  {
    match o
    case Send(to, request) => RequestGrows(g, h, i, request);
    case Apply(msg) => MsgGrows(g, h, msg);
    case Answer(_, ok, round, readIndex) =>
      if ok {
        var t :| Confirmed(g, i, Round(t, round), readIndex);
        assert ReignGrows(g, h, t);
        assert Confirmed(h, i, Round(t, round), readIndex);
      }
    case Started(e) => assert ReignGrows(g, h, e.term);
    case Elected(t) => assert ReignGrows(g, h, t);
    case Committed(e) => assert ReignGrows(g, h, e.term);
    case Opened(t, round, readIndex) => assert ReignGrows(g, h, t);
  }

  lemma OutGrows(g: History, h: History, i: Id, out: seq<Output>)
    requires DomainOk(g) && DomainOk(h) && Extends(g, h) && OutSound(g, i, out)
    ensures OutSound(h, i, out)
  {
    forall j | 0 <= j < |out| ensures OutputSound(h, i, out[j]) {
      assert OutputSound(g, i, out[j]);
      OutputGrows(g, h, i, out[j]);
    }
  }

  lemma AckFreshGrows(g: History, h: History, r: Round, v: Id)
    requires DomainOk(g) && DomainOk(h) && Extends(g, h) && r in g.rounds && AckFresh(g, r, v)
    ensures r in h.rounds && AckFresh(h, r, v)
  {
    forall c | c in h.rounds[r].before && c.term > r.term
      ensures c.term in h.reign && v !in h.reign[c.term].quorum
    {
      assert ReignGrows(g, h, c.term);
    }
  }

  lemma ReplyGrows(g: History, h: History, to: Id, request: Request, reply: Reply)
    requires DomainOk(g) && DomainOk(h) && Extends(g, h) && ReplySound(g, to, request, reply)
    ensures ReplySound(h, to, request, reply)
  {
    match request
    case RequestVote(a) =>
    case PreVote(_, _) =>
    case AppendEntries(a) =>
      if reply.append.success {
        match a.readRound
        case None => assert Acked(g, to, a.term) <= Acked(h, to, a.term);
        case Some(r) => AckFreshGrows(g, h, Round(a.term, r), to);
      }
    case InstallSnapshot(_) =>
  }

  /** What a node's role claims, if its own part of the histories is as it was. */
  ghost predicate SameRole(g: History, h: History, i: Id, t: int)
    requires DomainOk(g) && DomainOk(h) && h.members == g.members && i in g.members
  {
    && h.term[i] == g.term[i] && h.log[i] == g.log[i] && h.tally[i] == g.tally[i]
    && (Leads(h, i, t) ==> t in g.reign && h.reign[t] == g.reign[t])
    && (forall c | c in h.commits && c.term == t && Leads(h, i, t) :: c in g.commits)
    && (forall r | r in h.rounds && r.term == t && Leads(h, i, t) :: r in g.rounds)
  }

  lemma RolesGrow(g: History, h: History, i: Id, n: N.Node)
    requires DomainOk(g) && DomainOk(h) && Extends(g, h) && i in g.members && N.PeersOk(n)
    requires Roles(g, i, n) && SameRole(g, h, i, n.currentTerm)
    requires n.status == Leader ==> Acked(h, i, n.currentTerm) == Acked(g, i, n.currentTerm)
    ensures Roles(h, i, n)
  {
    var t := n.currentTerm;
    if t in g.reign { assert ReignGrows(g, h, t); }
    if n.status == Leader {
      forall p | p in n.peers ensures Accounted(h, n, p) {
        assert Accounted(g, n, p);
        assert Acked(g, p, t) <= Acked(h, p, t);
      }
    }
    ReadGrows(g, h, i, n);
  }

  lemma ReadGrows(g: History, h: History, i: Id, n: N.Node)
    requires DomainOk(g) && DomainOk(h) && Extends(g, h) && i in g.members && ReadRel(g, i, n)
    ensures ReadRel(h, i, n)
  {
    match n.activeRead
    case None =>
    case Some(a) =>
      forall v | v in a.acks ensures AckFresh(h, Round(a.term, a.number), v) {
        AckFreshGrows(g, h, Round(a.term, a.number), v);
      }
  }

  /** Another node's step leaves this node's relation standing. */
  lemma HoldsForOthers(g: History, h: History, j: Id, n: N.Node)
    requires Inv(g) && DomainOk(h) && Extends(g, h) && Holds(g, j, n) && SameFor(g, h, j)
    ensures Holds(h, j, n)
  {
    var t := n.currentTerm;
    if Leads(h, j, t) { assert ReignGrows(g, h, t); }
    RolesGrow(g, h, j, n);
  }
}
