/**
 * The protocol underneath the handlers, stated over ghost histories: every node's full log with the compacted part
 * put back, every vote ever cast, and for every term that got a leader the log that leader started from and the log
 * it has built since.  The handlers of Node.dfy are proved to be sequences of the steps of Steps.dfy on this state.
 */
module History {
  import opened Types

  /** A node together with a term. */
  datatype Ballot = Ballot(id: Id, term: int)

  /** What a leader committed: the first index entries of its log of that term. */
  datatype Commit = Commit(term: int, index: int)

  /** One term's leadership: who won, whose votes, the log at election and the log since. */
  datatype Reign = Reign(leader: Id, quorum: set<Id>, base: seq<Entry>, log: seq<Entry>)

  /** A read round, named by the term of its leader and a number. */
  datatype Round = Round(term: int, number: nat)
  datatype Opening = Opening(readIndex: int, before: set<Commit>)

  datatype History = History(
    members: set<Id>,
    term: map<Id, int>,
    log: map<Id, seq<Entry>>,
    commit: map<Id, int>,
    vote: map<Ballot, Id>,
    stand: map<Ballot, seq<Entry>>,
    reign: map<int, Reign>,
    acked: map<Ballot, int>,
    commits: set<Commit>,
    rounds: map<Round, Opening>,
    tally: map<Id, set<Id>>)

  // ---------------------------------------------------------------- quorums

  predicate IsQuorum(members: set<Id>, q: set<Id>) {
    q <= members && |q| >= |members| / 2 + 1
  }

  lemma QuorumsMeet(members: set<Id>, p: set<Id>, q: set<Id>) returns (v: Id)
    requires IsQuorum(members, p) && IsQuorum(members, q)
    ensures v in p && v in q
  {
    if forall x | x in p :: x !in q {
      assert p !! q;
      SubsetSize(p + q, members);
      assert false;
    }
    v :| v in p && v in q;
  }

  lemma {:induction false} SubsetSize<T>(a: set<T>, b: set<T>)
    requires a <= b
    ensures |a| <= |b|
  {
    if a != {} {
      var x :| x in a;
      SubsetSize(a - {x}, b - {x});
    }
  }

  // ---------------------------------------------------------------- logs

  function TermAt(log: seq<Entry>, index: int): int
    requires 0 <= index <= |log|
  {
    if index == 0 then 0 else log[index - 1].term
  }

  function LastTerm(log: seq<Entry>): int {
    TermAt(log, |log|)
  }

  /** Entry i of the log, and all before it, are what the leader of that entry's term had. */
  ghost predicate Anchored(g: History, log: seq<Entry>, i: int)
    requires 0 <= i < |log|
  {
    && log[i].term in g.reign
    && i < |g.reign[log[i].term].log|
    && log[..i + 1] == g.reign[log[i].term].log[..i + 1]
  }

  ghost predicate LogOk(g: History, log: seq<Entry>, bound: int) {
    && (forall i {:trigger Anchored(g, log, i)} | 0 <= i < |log| :: Anchored(g, log, i))
    && (forall i | 0 <= i < |log| :: log[i].index == i + 1 && 1 <= log[i].term <= bound)
  }

  /** Log Matching: equal terms at an index mean equal logs up to it. */
  lemma SameTermSamePrefix(g: History, a: seq<Entry>, boundA: int, b: seq<Entry>, boundB: int, m: int)
    requires LogOk(g, a, boundA) && LogOk(g, b, boundB)
    requires 0 <= m <= |a| && m <= |b| && TermAt(a, m) == TermAt(b, m)
    ensures a[..m] == b[..m]
  {
    if m > 0 {
      assert Anchored(g, a, m - 1) && Anchored(g, b, m - 1);
    }
  }

  /** The vote test of the source: is a log that ends at (lastIndex, lastTerm) at least as up to date as log? */
  predicate UpToDate(lastIndex: int, lastTerm: int, log: seq<Entry>) {
    lastTerm > LastTerm(log) || (lastTerm == LastTerm(log) && lastIndex >= |log|)
  }

  // ---------------------------------------------------------------- acknowledgements and commitment

  function Acked(g: History, v: Id, t: int): int {
    if Ballot(v, t) in g.acked then g.acked[Ballot(v, t)] else 0
  }

  /** v stored the leader's log of term t up to k while in term t, and entry k is of that term. */
  ghost predicate RealAck(g: History, v: Id, t: int, k: int) {
    && t in g.reign
    && 1 <= k <= Acked(g, v, t)
    && k <= |g.reign[t].log|
    && g.reign[t].log[k - 1].term == t
  }

  ghost predicate AckedBy(g: History, q: set<Id>, t: int, k: int) {
    forall v | v in q :: RealAck(g, v, t, k)
  }

  /** Entry k of term t is of that term and stored by a quorum in that term: the commit rule. */
  ghost predicate Certified(g: History, c: Commit) {
    && c.term in g.reign
    && exists q :: IsQuorum(g.members, q) && AckedBy(g, q, c.term, c.index)
  }

  /** Some leader of a term in (t, hi] started without the first k entries of term t's log. */
  ghost predicate Skipped(g: History, t: int, k: int, hi: int)
    requires t in g.reign && 0 <= k <= |g.reign[t].log|
  {
    exists w :: t < w <= hi && w in g.reign && !(g.reign[t].log[..k] <= g.reign[w].base)
  }

  /** A node keeps what it acknowledged unless a later leader lacked it. */
  ghost predicate Kept(g: History, v: Id, t: int, k: int)
    requires v in g.log && v in g.term && t in g.reign && 0 <= k <= |g.reign[t].log|
  {
    g.reign[t].log[..k] <= g.log[v] || Skipped(g, t, k, g.term[v])
  }

  /**
   * Whoever v voted for in term u has what v acknowledged before, unless a leader in between lacked it or the vote
   * came after the election of term u was over.
   */
  ghost predicate Promised(g: History, v: Id, u: int, t: int, k: int)
    requires Ballot(v, u) in g.vote && Ballot(g.vote[Ballot(v, u)], u) in g.stand
    requires t in g.reign && 0 <= k <= |g.reign[t].log|
  {
    || g.reign[t].log[..k] <= g.stand[Ballot(g.vote[Ballot(v, u)], u)]
    || Skipped(g, t, k, u - 1)
    || (u in g.reign && v !in g.reign[u].quorum)
  }

  /** log is a prefix of what some leader of a term up to t committed. */
  ghost predicate Settled(g: History, t: int, log: seq<Entry>) {
    log == [] || exists c :: c in g.commits && SettledBy(g, t, log, c)
  }

  ghost predicate SettledBy(g: History, t: int, log: seq<Entry>, c: Commit) {
    && c.term <= t && c.term in g.reign
    && |log| <= c.index <= |g.reign[c.term].log|
    && log == g.reign[c.term].log[..|log|]
  }

  // ---------------------------------------------------------------- the invariant

  ghost predicate DomainOk(g: History) {
    && (forall v | v in g.members :: v in g.term && v in g.log && v in g.commit && v in g.tally)
    && g.members != {} && NO_VOTE !in g.members
  }

  ghost predicate VoteOk(g: History, b: Ballot)
    requires b in g.vote
  {
    && b.id in g.members && b.id in g.term && b.term <= g.term[b.id]
    && Ballot(g.vote[b], b.term) in g.stand
  }

  ghost predicate StandOk(g: History, b: Ballot)
    requires b in g.stand
  {
    && b.id in g.members && b.id in g.term && 1 <= b.term <= g.term[b.id]
    && b in g.vote && g.vote[b] == b.id
    && LogOk(g, g.stand[b], b.term - 1)
  }

  ghost predicate ReignOk(g: History, t: int)
    requires t in g.reign
  {
    var r := g.reign[t];
    && t >= 1 && r.leader in g.members
    && IsQuorum(g.members, r.quorum)
    && r.base <= r.log
    && LogOk(g, r.log, t)
    && (forall i | 0 <= i < |r.log| :: r.log[i].term == t <==> |r.base| <= i)
    && Ballot(r.leader, t) in g.stand && g.stand[Ballot(r.leader, t)] == r.base
    && (forall v | v in r.quorum :: Ballot(v, t) in g.vote && g.vote[Ballot(v, t)] == r.leader)
  }

  ghost predicate NodeOk(g: History, v: Id)
    requires DomainOk(g) && v in g.members
  {
    && g.term[v] >= 0
    && LogOk(g, g.log[v], g.term[v])
    && 0 <= g.commit[v] <= |g.log[v]|
    && Settled(g, g.term[v], g.log[v][..g.commit[v]])
  }

  ghost predicate AckOk(g: History, b: Ballot)
    requires b in g.acked
  {
    && b.id in g.members && b.id in g.term && b.term <= g.term[b.id]
    && b.term in g.reign && 0 <= g.acked[b] <= |g.reign[b.term].log|
  }

  ghost predicate RoundOk(g: History, r: Round)
    requires r in g.rounds
  {
    && r.term in g.reign
    && forall c | c in g.rounds[r].before :: c in g.commits && (c.term <= r.term ==> c.index <= g.rounds[r].readIndex)
  }

  /** While it stays in the term, a node has the leader's log as far as it acknowledged it. */
  ghost predicate Stored(g: History, v: Id)
    requires DomainOk(g) && v in g.members
  {
    var t := g.term[v];
    t in g.reign ==>
      0 <= Acked(g, v, t) <= |g.reign[t].log| && g.reign[t].log[..Acked(g, v, t)] <= g.log[v]
  }

  ghost predicate Stores(g: History)
    requires DomainOk(g)
  {
    forall v {:trigger Stored(g, v)} | v in g.members :: Stored(g, v)
  }

  ghost predicate Votes(g: History) {
    && (forall b {:trigger VoteOk(g, b)} | b in g.vote :: VoteOk(g, b))
    && (forall b {:trigger StandOk(g, b)} | b in g.stand :: StandOk(g, b))
  }

  ghost predicate Reigns(g: History) {
    forall t {:trigger ReignOk(g, t)} | t in g.reign :: ReignOk(g, t)
  }

  ghost predicate Nodes(g: History)
    requires DomainOk(g)
  {
    forall v {:trigger NodeOk(g, v)} | v in g.members :: NodeOk(g, v)
  }

  ghost predicate Acks(g: History) {
    forall b {:trigger AckOk(g, b)} | b in g.acked :: AckOk(g, b)
  }

  ghost predicate Keeps(g: History)
    requires DomainOk(g)
  {
    forall v, t, k {:trigger RealAck(g, v, t, k)} | v in g.members && RealAck(g, v, t, k) :: Kept(g, v, t, k)
  }

  ghost predicate Promises(g: History)
    requires DomainOk(g) && Votes(g)
  {
    forall v, u, t, k {:trigger RealAck(g, v, t, k), Ballot(v, u)}
      | Ballot(v, u) in g.vote && t < u && RealAck(g, v, t, k) ::
      VoteOk(g, Ballot(v, u)) && Promised(g, v, u, t, k)
  }

  ghost predicate Commits(g: History) {
    forall c {:trigger Certified(g, c)} | c in g.commits :: Certified(g, c)
  }

  ghost predicate Rounds(g: History) {
    forall r {:trigger RoundOk(g, r)} | r in g.rounds :: RoundOk(g, r)
  }

  ghost predicate Coherent(g: History)
    requires DomainOk(g)
  {
    Votes(g) && Reigns(g) && Nodes(g) && Acks(g) && Stores(g) && Keeps(g) && Promises(g) && Commits(g) && Rounds(g)
  }

  ghost predicate Inv(g: History) {
    DomainOk(g) && Coherent(g)
  }

  // ---------------------------------------------------------------- Leader Completeness

  /**
   * Every leader of a later term started with everything an earlier leader's commit rule certified: the voter that
   * both quorums share had stored it before it voted.
   */
  lemma {:induction false} LeaderCompleteness(g: History, c: Commit, u: int)
    requires Inv(g) && Certified(g, c) && u in g.reign && c.term < u
    ensures 0 <= c.index <= |g.reign[c.term].log|
    ensures g.reign[c.term].log[..c.index] <= g.reign[u].base
    decreases u - c.term
  {
    var t, k := c.term, c.index;
    var q :| IsQuorum(g.members, q) && AckedBy(g, q, t, k);
    assert ReignOk(g, u);
    var v := QuorumsMeet(g.members, q, g.reign[u].quorum);
    assert RealAck(g, v, t, k);
    assert Ballot(v, u) in g.vote && g.vote[Ballot(v, u)] == g.reign[u].leader;
    assert Promised(g, v, u, t, k);
    if Skipped(g, t, k, u - 1) {
      var w :| t < w <= u - 1 && w in g.reign && !(g.reign[t].log[..k] <= g.reign[w].base);
      LeaderCompleteness(g, c, w);
      assert false;
    }
  }

  lemma SettledByInReign(g: History, t: int, log: seq<Entry>, c: Commit, u: int)
    requires Inv(g) && c in g.commits && SettledBy(g, t, log, c) && u in g.reign && c.term < u
    ensures log <= g.reign[u].log
  {
    LeaderCompleteness(g, c, u);
    assert ReignOk(g, u);
    PrefixChain(log, g.reign[c.term].log, c.index, g.reign[u].base, g.reign[u].log);
  }

  /** Commit points of the same or earlier terms are prefixes of a term's log. */
  lemma SettledInReign(g: History, t: int, log: seq<Entry>, u: int)
    requires Inv(g) && Settled(g, t, log) && u in g.reign && t <= u
    ensures log <= g.reign[u].log
  {
    if log != [] {
      var c :| c in g.commits && SettledBy(g, t, log, c);
      if c.term < u {
        SettledByInReign(g, t, log, c, u);
      }
    }
  }

  lemma PrefixChain<T>(a: seq<T>, l: seq<T>, k: int, b: seq<T>, r: seq<T>)
    requires |a| <= k <= |l| && a == l[..|a|] && l[..k] <= b && b <= r
    ensures a <= r
  {
    assert forall i | 0 <= i < |a| :: a[i] == l[..k][i] == b[i] == r[i];
  }

  /** Any two committed prefixes agree: one of them extends the other. */
  lemma SettledAgree(g: History, t: int, a: seq<Entry>, u: int, b: seq<Entry>)
    requires Inv(g) && Settled(g, t, a) && Settled(g, u, b)
    ensures a <= b || b <= a
  {
    if a != [] && b != [] {
      var c :| c in g.commits && SettledBy(g, t, a, c);
      var d :| d in g.commits && SettledBy(g, u, b, d);
      if c.term <= d.term {
        assert SettledBy(g, d.term, a, c);
        SettledInReign(g, d.term, a, d.term);
      } else {
        assert SettledBy(g, c.term, b, d);
        SettledInReign(g, c.term, b, c.term);
      }
    }
  }
}
