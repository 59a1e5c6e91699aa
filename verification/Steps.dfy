/**
 * The steps of the protocol on histories.  Each keeps the invariant, only ever adds to the histories, and leaves
 * alone what belongs to the other nodes.
 */
module Steps {
  import opened Types
  import opened History

  // ---------------------------------------------------------------- growth

  ghost predicate ReignGrows(g: History, h: History, t: int)
    requires t in g.reign
  {
    && t in h.reign
    && h.reign[t].leader == g.reign[t].leader && h.reign[t].quorum == g.reign[t].quorum
    && h.reign[t].base == g.reign[t].base && g.reign[t].log <= h.reign[t].log
  }

  /** Histories only grow. */
  ghost predicate Extends(g: History, h: History)
    requires DomainOk(g) && DomainOk(h)
  {
    && h.members == g.members
    && (forall v | v in g.members :: g.term[v] <= h.term[v])
    && (forall b | b in g.vote :: b in h.vote && h.vote[b] == g.vote[b])
    && (forall b | b in g.stand :: b in h.stand && h.stand[b] == g.stand[b])
    && (forall t {:trigger t in g.reign} {:trigger t in h.reign} | t in g.reign :: ReignGrows(g, h, t))
    && (forall v, t :: Acked(g, v, t) <= Acked(h, v, t))
    && g.commits <= h.commits
    && (forall r | r in g.rounds :: r in h.rounds && h.rounds[r] == g.rounds[r])
  }

  /** Nothing that belongs to node j changed. */
  ghost predicate SameFor(g: History, h: History, j: Id)
    requires DomainOk(g) && DomainOk(h) && h.members == g.members && j in g.members
  {
    && h.term[j] == g.term[j] && h.log[j] == g.log[j] && h.commit[j] == g.commit[j] && h.tally[j] == g.tally[j]
    && (forall t :: Acked(h, j, t) == Acked(g, j, t))
    && (forall t | Ballot(j, t) in h.vote :: Ballot(j, t) in g.vote)
    && (forall t | Ballot(j, t) in h.stand :: Ballot(j, t) in g.stand)
    && (forall t | t in h.reign && h.reign[t].leader == j :: t in g.reign && h.reign[t].log == g.reign[t].log)
    && (forall c | c in h.commits && c.term in h.reign && h.reign[c.term].leader == j :: c in g.commits)
    && (forall r | r in h.rounds && r.term in h.reign && h.reign[r.term].leader == j :: r in g.rounds)
  }

  /** Only node i's part changed. */
  ghost predicate OnlyFor(g: History, h: History, i: Id)
    requires DomainOk(g) && DomainOk(h) && h.members == g.members
  {
    forall j | j in g.members && j != i :: SameFor(g, h, j)
  }

  /** What i acknowledges anew, it acknowledges in the term it is in. */
  ghost predicate AcksNow(g: History, h: History, i: Id)
    requires DomainOk(h) && i in h.members
  {
    forall t :: Acked(h, i, t) > Acked(g, i, t) ==> h.term[i] == t
  }

  /** Histories grow, and only in what belongs to node i. */
  ghost predicate Grows(g: History, h: History, i: Id)
    requires DomainOk(g)
  {
    DomainOk(h) && Extends(g, h) && OnlyFor(g, h, i) && i in h.members && AcksNow(g, h, i)
  }

  /** A step, or several, of node i. */
  ghost predicate Evolves(g: History, h: History, i: Id)
    requires DomainOk(g)
  {
    Inv(h) && Grows(g, h, i)
  }

  /** The voters that i has counted, unless it stood again. */
  ghost predicate TallyWithin(g: History, h: History, i: Id, more: set<Id>) {
    i in g.tally && i in h.tally && h.tally[i] <= g.tally[i] + {i} + more
  }

  /** Steps of node i that open no read round and count no new voter. */
  ghost predicate Advance(g: History, h: History, i: Id)
    requires DomainOk(g)
  {
    Evolves(g, h, i) && h.rounds == g.rounds && TallyWithin(g, h, i, {})
  }

  lemma AdvanceRefl(g: History, i: Id)
    requires Inv(g) && i in g.members
    ensures Advance(g, g, i)
  {
  }

  lemma ExtendsTrans(g: History, h: History, k: History)
    requires DomainOk(g) && DomainOk(h) && DomainOk(k)
    requires Extends(g, h) && Extends(h, k)
    ensures Extends(g, k)
  {
    forall t | t in g.reign ensures ReignGrows(g, k, t) {
      assert ReignGrows(g, h, t) && ReignGrows(h, k, t);
    }
    forall v, t ensures Acked(g, v, t) <= Acked(k, v, t) {
      assert Acked(g, v, t) <= Acked(h, v, t) <= Acked(k, v, t);
    }
  }

  /** A node does not leave a term in the handler in which it acknowledged something. */
  ghost predicate InOrder(g: History, h: History, k: History, i: Id)
    requires i in h.term && i in k.term
  {
    h.acked == g.acked || k.term[i] == h.term[i]
  }

  lemma AdvanceTrans(g: History, h: History, k: History, i: Id)
    requires DomainOk(g) && Advance(g, h, i) && Advance(h, k, i) && InOrder(g, h, k, i)
    ensures Advance(g, k, i)
  {
    EvolvesTrans(g, h, k, i);
  }

  lemma EvolvesTrans(g: History, h: History, k: History, i: Id)
    requires DomainOk(g) && Evolves(g, h, i) && Evolves(h, k, i) && InOrder(g, h, k, i)
    ensures Evolves(g, k, i)
  {
    hide Coherent;
    ExtendsTrans(g, h, k);
    forall t | Acked(k, i, t) > Acked(g, i, t) ensures k.term[i] == t {
      assert Acked(k, i, t) > Acked(h, i, t) || Acked(h, i, t) > Acked(g, i, t);
    }
    forall j | j in g.members && j != i ensures SameFor(g, k, j) {
      SameForTrans(g, h, k, j);
    }
  }

  lemma SameForTrans(g: History, h: History, k: History, j: Id)
    requires DomainOk(g) && DomainOk(h) && DomainOk(k) && Extends(g, h) && Extends(h, k)
    requires j in g.members && SameFor(g, h, j) && SameFor(h, k, j)
    ensures SameFor(g, k, j)
  {
    forall t | t in k.reign && k.reign[t].leader == j ensures t in g.reign && k.reign[t].log == g.reign[t].log {
      assert ReignGrows(h, k, t);
    }
    forall t ensures Acked(k, j, t) == Acked(g, j, t) {
      assert Acked(h, j, t) == Acked(g, j, t);
    }
    forall c | c in k.commits && c.term in k.reign && k.reign[c.term].leader == j ensures c in g.commits {
      assert ReignGrows(h, k, c.term);
    }
    forall r | r in k.rounds && r.term in k.reign && k.reign[r.term].leader == j ensures r in g.rounds {
      assert ReignGrows(h, k, r.term);
    }
  }

  // ---------------------------------------------------------------- facts that survive growth

  lemma AnchoredGrows(g: History, h: History, log: seq<Entry>, i: int)
    requires DomainOk(g) && DomainOk(h) && Extends(g, h) && 0 <= i < |log| && Anchored(g, log, i)
    ensures Anchored(h, log, i)
  {
    assert ReignGrows(g, h, log[i].term);
  }

  lemma LogOkGrows(g: History, h: History, log: seq<Entry>, bound: int)
    requires DomainOk(g) && DomainOk(h) && Extends(g, h) && LogOk(g, log, bound)
    ensures LogOk(h, log, bound)
  {
    forall i | 0 <= i < |log| ensures Anchored(h, log, i) {
      assert Anchored(g, log, i);
      AnchoredGrows(g, h, log, i);
    }
  }

  lemma RealAckGrows(g: History, h: History, v: Id, t: int, k: int)
    requires DomainOk(g) && DomainOk(h) && Extends(g, h) && RealAck(g, v, t, k)
    ensures RealAck(h, v, t, k)
  {
    assert ReignGrows(g, h, t);
    assert Acked(g, v, t) <= Acked(h, v, t);
  }

  lemma CertifiedGrows(g: History, h: History, c: Commit)
    requires DomainOk(g) && DomainOk(h) && Extends(g, h) && Certified(g, c)
    ensures Certified(h, c)
  {
    var q :| IsQuorum(g.members, q) && AckedBy(g, q, c.term, c.index);
    forall v | v in q ensures RealAck(h, v, c.term, c.index) {
      RealAckGrows(g, h, v, c.term, c.index);
    }
    assert ReignGrows(g, h, c.term);
    assert AckedBy(h, q, c.term, c.index);
  }

  lemma SettledGrows(g: History, h: History, t: int, u: int, log: seq<Entry>)
    requires DomainOk(g) && DomainOk(h) && Extends(g, h) && t <= u && Settled(g, t, log)
    ensures Settled(h, u, log)
  {
    if log != [] {
      var c :| c in g.commits && SettledBy(g, t, log, c);
      assert ReignGrows(g, h, c.term);
      assert SettledBy(h, u, log, c);
    }
  }

  lemma SettledPrefix(g: History, t: int, log: seq<Entry>, m: int)
    requires 0 <= m <= |log| && Settled(g, t, log)
    ensures Settled(g, t, log[..m])
  {
    if m > 0 {
      var c :| c in g.commits && SettledBy(g, t, log, c);
      assert SettledBy(g, t, log[..m], c);
    }
  }

  lemma SkippedGrows(g: History, h: History, t: int, k: int, lo: int, hi: int)
    requires DomainOk(g) && DomainOk(h) && Extends(g, h) && lo <= hi
    requires t in g.reign && 0 <= k <= |g.reign[t].log| && Skipped(g, t, k, lo)
    ensures t in h.reign && k <= |h.reign[t].log| && Skipped(h, t, k, hi)
  {
    var w :| t < w <= lo && w in g.reign && !(g.reign[t].log[..k] <= g.reign[w].base);
    assert ReignGrows(g, h, t) && ReignGrows(g, h, w);
    assert h.reign[t].log[..k] == g.reign[t].log[..k];
  }

  lemma KeptGrows(g: History, h: History, v: Id, t: int, k: int)
    requires DomainOk(g) && DomainOk(h) && Extends(g, h) && v in g.members && g.log[v] <= h.log[v]
    requires t in g.reign && 0 <= k <= |g.reign[t].log| && Kept(g, v, t, k)
    ensures t in h.reign && k <= |h.reign[t].log| && Kept(h, v, t, k)
  {
    assert ReignGrows(g, h, t);
    assert h.reign[t].log[..k] == g.reign[t].log[..k];
    if Skipped(g, t, k, g.term[v]) {
      SkippedGrows(g, h, t, k, g.term[v], h.term[v]);
    }
  }

  lemma PromisedGrows(g: History, h: History, v: Id, u: int, t: int, k: int)
    requires DomainOk(g) && DomainOk(h) && Extends(g, h)
    requires Ballot(v, u) in g.vote && Ballot(g.vote[Ballot(v, u)], u) in g.stand
    requires t in g.reign && 0 <= k <= |g.reign[t].log| && Promised(g, v, u, t, k)
    ensures Ballot(v, u) in h.vote && Ballot(h.vote[Ballot(v, u)], u) in h.stand
    ensures t in h.reign && k <= |h.reign[t].log| && Promised(h, v, u, t, k)
  {
    assert ReignGrows(g, h, t);
    assert h.reign[t].log[..k] == g.reign[t].log[..k];
    if Skipped(g, t, k, u - 1) {
      SkippedGrows(g, h, t, k, u - 1, u - 1);
    }
  }

  // ---------------------------------------------------------------- parts of the invariant that survive growth

  lemma OldVotesOk(g: History, h: History)
    requires Inv(g) && DomainOk(h) && Extends(g, h)
    ensures forall b {:trigger VoteOk(h, b)} | b in g.vote :: VoteOk(h, b)
    ensures forall b {:trigger StandOk(h, b)} | b in g.stand :: StandOk(h, b)
  {
    forall b | b in g.vote ensures VoteOk(h, b) {
      assert VoteOk(g, b);
    }
    forall b | b in g.stand ensures StandOk(h, b) {
      assert StandOk(g, b);
      LogOkGrows(g, h, g.stand[b], b.term - 1);
    }
  }

  lemma SameVotes(g: History, h: History)
    requires Inv(g) && DomainOk(h) && Extends(g, h) && h.vote == g.vote && h.stand == g.stand
    ensures Votes(h)
  {
    OldVotesOk(g, h);
  }

  lemma OldCommitsCertified(g: History, h: History)
    requires Inv(g) && DomainOk(h) && Extends(g, h)
    ensures forall c {:trigger Certified(h, c)} | c in g.commits :: Certified(h, c)
  {
    forall c | c in g.commits ensures Certified(h, c) {
      assert Certified(g, c);
      CertifiedGrows(g, h, c);
    }
  }

  lemma SameCommits(g: History, h: History)
    requires Inv(g) && DomainOk(h) && Extends(g, h) && h.commits == g.commits
    ensures Commits(h)
  {
    OldCommitsCertified(g, h);
  }

  lemma OldRoundsOk(g: History, h: History)
    requires Inv(g) && DomainOk(h) && Extends(g, h)
    ensures forall r {:trigger RoundOk(h, r)} | r in g.rounds :: RoundOk(h, r)
  {
    forall r | r in g.rounds ensures RoundOk(h, r) {
      assert RoundOk(g, r);
      assert ReignGrows(g, h, r.term);
    }
  }

  lemma SameRounds(g: History, h: History)
    requires Inv(g) && DomainOk(h) && Extends(g, h) && h.rounds == g.rounds
    ensures Rounds(h)
  {
    OldRoundsOk(g, h);
  }

  lemma OldAckOk(g: History, h: History, b: Ballot)
    requires Inv(g) && DomainOk(h) && Extends(g, h) && b in g.acked && b in h.acked && h.acked[b] == g.acked[b]
    ensures AckOk(h, b)
  {
    assert AckOk(g, b);
    assert ReignGrows(g, h, b.term);
  }

  lemma SameAcks(g: History, h: History)
    requires Inv(g) && DomainOk(h) && Extends(g, h) && h.acked == g.acked
    ensures Acks(h)
  {
    forall b | b in h.acked ensures AckOk(h, b) {
      OldAckOk(g, h, b);
    }
  }

  lemma SameReignOk(g: History, h: History, t: int)
    requires Inv(g) && DomainOk(h) && Extends(g, h) && t in g.reign && h.reign[t] == g.reign[t]
    ensures ReignOk(h, t)
  {
    assert ReignOk(g, t);
    LogOkGrows(g, h, g.reign[t].log, t);
  }

  lemma SameReigns(g: History, h: History)
    requires Inv(g) && DomainOk(h) && Extends(g, h) && h.reign == g.reign
    ensures Reigns(h)
  {
    forall t | t in h.reign ensures ReignOk(h, t) {
      SameReignOk(g, h, t);
    }
  }

  lemma SameNodeOk(g: History, h: History, v: Id)
    requires Inv(g) && DomainOk(h) && Extends(g, h) && v in g.members
    requires h.log[v] == g.log[v] && h.commit[v] == g.commit[v]
    ensures NodeOk(h, v)
  {
    assert NodeOk(g, v);
    LogOkGrows(g, h, g.log[v], g.term[v]);
    SettledGrows(g, h, g.term[v], h.term[v], g.log[v][..g.commit[v]]);
  }

  lemma SameNodes(g: History, h: History)
    requires Inv(g) && DomainOk(h) && Extends(g, h) && h.log == g.log && h.commit == g.commit
    ensures Nodes(h)
  {
    forall v | v in h.members ensures NodeOk(h, v) {
      SameNodeOk(g, h, v);
    }
  }

  /** All nodes but v are as they were. */
  lemma OtherNodes(g: History, h: History, v: Id)
    requires Inv(g) && DomainOk(h) && Extends(g, h) && v in g.members && NodeOk(h, v)
    requires forall w | w in g.members && w != v :: h.log[w] == g.log[w] && h.commit[w] == g.commit[w]
    ensures Nodes(h)
  {
    forall w | w in h.members ensures NodeOk(h, w) {
      if w != v { SameNodeOk(g, h, w); }
    }
  }

  /** Steps that add no acknowledgement and shorten no log keep Keeps and, if they add no vote, Promises. */
  lemma QuietKeeps(g: History, h: History)
    requires Inv(g) && DomainOk(h) && Extends(g, h) && h.acked == g.acked
    requires forall v | v in g.members :: g.log[v] <= h.log[v]
    requires forall t | t in h.reign && t !in g.reign :: forall v :: Ballot(v, t) !in g.acked
    ensures Keeps(h)
  {
    forall v, t, k | v in h.members && RealAck(h, v, t, k) ensures Kept(h, v, t, k) {
      QuietAck(g, h, v, t, k);
      KeptGrows(g, h, v, t, k);
    }
  }

  lemma QuietAck(g: History, h: History, v: Id, t: int, k: int)
    requires Inv(g) && DomainOk(h) && Extends(g, h) && h.acked == g.acked && RealAck(h, v, t, k)
    requires forall t | t in h.reign && t !in g.reign :: forall v :: Ballot(v, t) !in g.acked
    ensures RealAck(g, v, t, k)
  {
    assert Ballot(v, t) in h.acked;
    assert AckOk(g, Ballot(v, t));
    assert ReignGrows(g, h, t);
  }

  lemma QuietPromises(g: History, h: History)
    requires Inv(g) && DomainOk(h) && Votes(h) && Extends(g, h) && h.acked == g.acked && h.vote == g.vote
    requires forall t | t in h.reign && t !in g.reign :: forall v :: Ballot(v, t) !in g.acked
    ensures Promises(h)
  {
    forall v, u, t, k | Ballot(v, u) in h.vote && t < u && RealAck(h, v, t, k)
      ensures VoteOk(h, Ballot(v, u)) && Promised(h, v, u, t, k)
    {
      QuietAck(g, h, v, t, k);
      assert VoteOk(g, Ballot(v, u)) && VoteOk(h, Ballot(v, u));
      PromisedGrows(g, h, v, u, t, k);
    }
  }

  lemma QuietStored(g: History, h: History, v: Id)
    requires Inv(g) && DomainOk(h) && Extends(g, h) && v in g.members && g.log[v] <= h.log[v]
    requires forall t | t in h.reign && t !in g.reign :: Ballot(v, t) !in h.acked
    requires forall t ::
      Ballot(v, t) in h.acked ==> Ballot(v, t) in g.acked && h.acked[Ballot(v, t)] == g.acked[Ballot(v, t)]
    ensures Stored(h, v)
  {
    var t := h.term[v];
    if t in h.reign && Ballot(v, t) in h.acked {
      assert AckOk(g, Ballot(v, t)) && Stored(g, v);
      assert ReignGrows(g, h, t);
      assert h.reign[t].log[..Acked(g, v, t)] == g.reign[t].log[..Acked(g, v, t)];
    }
  }

  lemma QuietStores(g: History, h: History)
    requires Inv(g) && DomainOk(h) && Extends(g, h) && h.acked == g.acked
    requires forall v | v in g.members :: g.log[v] <= h.log[v]
    requires forall t | t in h.reign && t !in g.reign :: forall v :: Ballot(v, t) !in g.acked
    ensures Stores(h)
  {
    forall v | v in h.members ensures Stored(h, v) {
      QuietStored(g, h, v);
    }
  }

  // ---------------------------------------------------------------- RaiseTerm

  ghost function RaiseTerm(g: History, v: Id, t: int): History {
    g.(term := g.term[v := t])
  }

  lemma RaiseTermGrows(g: History, v: Id, t: int)
    requires Inv(g) && v in g.members && g.term[v] < t
    ensures Grows(g, RaiseTerm(g, v, t), v)
  {
  }

  lemma RaiseTermAdvances(g: History, v: Id, t: int)
    requires Inv(g) && v in g.members && g.term[v] < t
    ensures Advance(g, RaiseTerm(g, v, t), v)
  {
    var h := RaiseTerm(g, v, t);
    RaiseTermGrows(g, v, t);
    SameVotes(g, h);
    SameReigns(g, h);
    SameNodes(g, h);
    SameAcks(g, h);
    SameCommits(g, h);
    SameRounds(g, h);
    QuietKeeps(g, h);
    QuietStores(g, h);
    QuietPromises(g, h);
  }

  // ---------------------------------------------------------------- Stand

  /** v opens an election in term t and votes for itself. */
  ghost function Stand(g: History, v: Id, t: int): History
    requires v in g.log
  {
    g.(term := g.term[v := t], vote := g.vote[Ballot(v, t) := v], stand := g.stand[Ballot(v, t) := g.log[v]],
       tally := g.tally[v := {v}])
  }

  lemma StandFresh(g: History, v: Id, t: int)
    requires Inv(g) && v in g.members && g.term[v] < t
    ensures Ballot(v, t) !in g.vote && Ballot(v, t) !in g.stand
  {
    assert Ballot(v, t) in g.vote ==> VoteOk(g, Ballot(v, t));
    assert Ballot(v, t) in g.stand ==> StandOk(g, Ballot(v, t));
  }

  lemma StandGrows(g: History, v: Id, t: int)
    requires DomainOk(g) && v in g.members && g.term[v] < t && Ballot(v, t) !in g.vote && Ballot(v, t) !in g.stand
    ensures Grows(g, Stand(g, v, t), v)
  {
  }

  lemma StandVotes(g: History, v: Id, t: int)
    requires Inv(g) && v in g.members && g.term[v] < t
    ensures Votes(Stand(g, v, t))
  {
    var h := Stand(g, v, t);
    StandFresh(g, v, t);
    StandGrows(g, v, t);
    OldVotesOk(g, h);
    assert NodeOk(g, v);
    LogOkGrows(g, h, g.log[v], g.term[v]);
  }

  lemma StandPromises(g: History, v: Id, t: int)
    requires Inv(g) && v in g.members && g.term[v] < t
    requires DomainOk(Stand(g, v, t)) && Extends(g, Stand(g, v, t)) && Votes(Stand(g, v, t))
    ensures Promises(Stand(g, v, t))
  {
    var h := Stand(g, v, t);
    forall x, u, s, k | Ballot(x, u) in h.vote && s < u && RealAck(h, x, s, k)
      ensures VoteOk(h, Ballot(x, u)) && Promised(h, x, u, s, k)
    {
      QuietAck(g, h, x, s, k);
      assert VoteOk(h, Ballot(x, u));
      if Ballot(x, u) == Ballot(v, t) {
        assert Kept(g, v, s, k);
        if Skipped(g, s, k, g.term[v]) {
          SkippedGrows(g, h, s, k, g.term[v], t - 1);
        }
      } else {
        assert VoteOk(g, Ballot(x, u));
        PromisedGrows(g, h, x, u, s, k);
      }
    }
  }

  lemma StandAdvances(g: History, v: Id, t: int)
    requires Inv(g) && v in g.members && g.term[v] < t
    ensures Advance(g, Stand(g, v, t), v)
  {
    var h := Stand(g, v, t);
    StandFresh(g, v, t);
    StandGrows(g, v, t);
    StandVotes(g, v, t);
    SameReigns(g, h);
    SameNodes(g, h);
    SameAcks(g, h);
    SameCommits(g, h);
    SameRounds(g, h);
    QuietKeeps(g, h);
    QuietStores(g, h);
    StandPromises(g, v, t);
  }

  // ---------------------------------------------------------------- CastVote

  ghost function CastVote(g: History, v: Id, c: Id): History
    requires v in g.term
  {
    g.(vote := g.vote[Ballot(v, g.term[v]) := c])
  }

  ghost predicate MayVote(g: History, v: Id, c: Id)
    requires DomainOk(g) && v in g.members
  {
    var b := Ballot(c, g.term[v]);
    && Ballot(v, g.term[v]) !in g.vote
    && b in g.stand
    && UpToDate(|g.stand[b]|, LastTerm(g.stand[b]), g.log[v])
  }

  /** A log that has entry k of term t and one at least as up to date: the other has it too, or a leader lacked it. */
  lemma UpToDateCarries(g: History, l: seq<Entry>, bound: int, s: seq<Entry>, u: int, t: int, k: int)
    requires Inv(g) && LogOk(g, l, bound) && LogOk(g, s, u - 1) && UpToDate(|s|, LastTerm(s), l)
    requires t in g.reign && 1 <= k <= |g.reign[t].log| && g.reign[t].log[k - 1].term == t
    requires g.reign[t].log[..k] <= l
    ensures g.reign[t].log[..k] <= s || Skipped(g, t, k, u - 1)
  {
    TermsRise(g, l, bound, k - 1, |l| - 1);
    var w := LastTerm(s);
    assert w >= t && s != [];
    assert Anchored(g, s, |s| - 1);
    assert s == g.reign[w].log[..|s|];
    assert ReignOk(g, w);
    if w == t {
      assert LastTerm(l) == t;
      assert g.reign[t].log[..k] == g.reign[w].log[..|s|][..k];
    } else if g.reign[t].log[..k] <= g.reign[w].base {
      LastOfOwnTerm(g, w, |s|);
      PrefixChain(g.reign[t].log[..k], g.reign[t].log[..k], k, g.reign[w].base, s);
    }
  }

  /** Terms never fall along a log. */
  lemma TermsRise(g: History, log: seq<Entry>, bound: int, i: int, j: int)
    requires Inv(g) && LogOk(g, log, bound) && 0 <= i <= j < |log|
    ensures log[i].term <= log[j].term
  {
    assert Anchored(g, log, j);
    var t := log[j].term;
    assert ReignOk(g, t);
    assert log[i] == log[..j + 1][i] == g.reign[t].log[..j + 1][i];
  }

  /** An entry of the leader's own term lies beyond the log it started with. */
  lemma LastOfOwnTerm(g: History, w: int, n: int)
    requires Inv(g) && w in g.reign && 1 <= n <= |g.reign[w].log| && g.reign[w].log[n - 1].term == w
    ensures |g.reign[w].base| < n && g.reign[w].base <= g.reign[w].log[..n]
  {
    assert ReignOk(g, w);
  }

  /** The vote test does its work: a candidate that passes it has what the voter has kept. */
  lemma VoteCarries(g: History, v: Id, c: Id, t: int, k: int)
    requires Inv(g) && v in g.members && MayVote(g, v, c)
    requires t < g.term[v] && RealAck(g, v, t, k)
    ensures || g.reign[t].log[..k] <= g.stand[Ballot(c, g.term[v])]
            || Skipped(g, t, k, g.term[v] - 1)
            || (g.term[v] in g.reign && v !in g.reign[g.term[v]].quorum)
  {
    var u := g.term[v];
    assert Kept(g, v, t, k);
    if g.reign[t].log[..k] <= g.log[v] {
      assert NodeOk(g, v) && StandOk(g, Ballot(c, u));
      UpToDateCarries(g, g.log[v], u, g.stand[Ballot(c, u)], u, t, k);
    } else {
      var w :| t < w <= u && w in g.reign && !(g.reign[t].log[..k] <= g.reign[w].base);
      if w == u {
        assert ReignOk(g, u);
      }
    }
  }

  lemma CastVotePromises(g: History, v: Id, c: Id)
    requires Inv(g) && v in g.members && MayVote(g, v, c)
    requires DomainOk(CastVote(g, v, c)) && Extends(g, CastVote(g, v, c)) && Votes(CastVote(g, v, c))
    ensures Promises(CastVote(g, v, c))
  {
    var h := CastVote(g, v, c);
    forall x, u, s, k | Ballot(x, u) in h.vote && s < u && RealAck(h, x, s, k)
      ensures VoteOk(h, Ballot(x, u)) && Promised(h, x, u, s, k)
    {
      QuietAck(g, h, x, s, k);
      assert VoteOk(h, Ballot(x, u));
      if Ballot(x, u) == Ballot(v, g.term[v]) {
        VoteCarries(g, v, c, s, k);
        if Skipped(g, s, k, u - 1) {
          SkippedGrows(g, h, s, k, u - 1, u - 1);
        }
      } else {
        assert VoteOk(g, Ballot(x, u));
        PromisedGrows(g, h, x, u, s, k);
      }
    }
  }

  lemma CastVoteGrows(g: History, v: Id, c: Id)
    requires Inv(g) && v in g.members && MayVote(g, v, c)
    ensures Grows(g, CastVote(g, v, c), v)
  {
  }

  lemma CastVoteAdvances(g: History, v: Id, c: Id)
    requires Inv(g) && v in g.members && MayVote(g, v, c)
    ensures Advance(g, CastVote(g, v, c), v)
  {
    var h := CastVote(g, v, c);
    CastVoteGrows(g, v, c);
    OldVotesOk(g, h);
    assert StandOk(g, Ballot(c, g.term[v]));
    SameReigns(g, h);
    SameNodes(g, h);
    SameAcks(g, h);
    SameCommits(g, h);
    SameRounds(g, h);
    QuietKeeps(g, h);
    QuietStores(g, h);
    CastVotePromises(g, v, c);
  }

  // ---------------------------------------------------------------- Elect

  /** c wins term t with the votes of q. */
  ghost function Elect(g: History, c: Id, q: set<Id>): History
    requires c in g.log && c in g.term
  {
    g.(reign := g.reign[g.term[c] := Reign(c, q, g.log[c], g.log[c])])
  }

  ghost predicate MayWin(g: History, c: Id, q: set<Id>)
    requires DomainOk(g) && c in g.members
  {
    var t := g.term[c];
    && t !in g.reign && IsQuorum(g.members, q)
    && Ballot(c, t) in g.stand && g.stand[Ballot(c, t)] == g.log[c]
    && forall v | v in q :: Ballot(v, t) in g.vote && g.vote[Ballot(v, t)] == c
  }

  lemma ElectPromises(g: History, c: Id, q: set<Id>)
    requires Inv(g) && c in g.members && MayWin(g, c, q)
    requires DomainOk(Elect(g, c, q)) && Extends(g, Elect(g, c, q)) && Votes(Elect(g, c, q))
    requires forall v :: Ballot(v, g.term[c]) !in g.acked
    ensures Promises(Elect(g, c, q))
  {
    QuietPromises(g, Elect(g, c, q));
  }

  lemma ElectReigns(g: History, c: Id, q: set<Id>)
    requires Inv(g) && c in g.members && MayWin(g, c, q)
    requires DomainOk(Elect(g, c, q)) && Extends(g, Elect(g, c, q))
    ensures Reigns(Elect(g, c, q))
  {
    var h := Elect(g, c, q);
    assert StandOk(g, Ballot(c, g.term[c]));
    LogOkGrows(g, h, g.log[c], g.term[c] - 1);
    forall t | t in h.reign ensures ReignOk(h, t) {
      if t in g.reign { SameReignOk(g, h, t); }
    }
  }

  lemma NoAckBeforeElection(g: History, t: int)
    requires Inv(g) && t !in g.reign
    ensures forall v :: Ballot(v, t) !in g.acked
  {
    forall v ensures Ballot(v, t) !in g.acked {
      assert Ballot(v, t) in g.acked ==> AckOk(g, Ballot(v, t));
    }
  }

  lemma ElectGrows(g: History, c: Id, q: set<Id>)
    requires Inv(g) && c in g.members && MayWin(g, c, q)
    ensures Grows(g, Elect(g, c, q), c)
  {
  }

  lemma ElectAdvances(g: History, c: Id, q: set<Id>)
    requires Inv(g) && c in g.members && MayWin(g, c, q)
    ensures Advance(g, Elect(g, c, q), c)
    ensures Acked(g, c, g.term[c]) == 0
  {
    var h := Elect(g, c, q);
    NoAckBeforeElection(g, g.term[c]);
    ElectGrows(g, c, q);
    ElectReigns(g, c, q);
    SameVotes(g, h);
    SameNodes(g, h);
    SameAcks(g, h);
    SameCommits(g, h);
    SameRounds(g, h);
    QuietKeeps(g, h);
    QuietStores(g, h);
    ElectPromises(g, c, q);
  }

  /** Two elections of one term would share a voter: at most one leader per term. */
  lemma OneWinner(g: History, c: Id, q: set<Id>)
    requires Inv(g) && c in g.members && IsQuorum(g.members, q) && g.term[c] in g.reign
    requires forall v | v in q :: Ballot(v, g.term[c]) in g.vote && g.vote[Ballot(v, g.term[c])] == c
    ensures g.reign[g.term[c]].leader == c
  {
    assert ReignOk(g, g.term[c]);
    var v := QuorumsMeet(g.members, q, g.reign[g.term[c]].quorum);
  }

  // ---------------------------------------------------------------- LeaderAppend

  ghost predicate Rules(g: History, l: Id)
    requires DomainOk(g) && l in g.members
  {
    var t := g.term[l];
    t in g.reign && g.reign[t].leader == l && g.reign[t].log == g.log[l]
  }

  ghost function LeaderAppend(g: History, l: Id, op: Op): History
    requires DomainOk(g) && l in g.members && Rules(g, l)
  {
    var t := g.term[l];
    var log := g.log[l] + [Entry(t, |g.log[l]| + 1, op)];
    g.(log := g.log[l := log], reign := g.reign[t := g.reign[t].(log := log)], acked := g.acked[Ballot(l, t) := |log|])
  }

  lemma LeaderAppendGrows(g: History, l: Id, op: Op)
    requires Inv(g) && l in g.members && Rules(g, l)
    ensures Grows(g, LeaderAppend(g, l, op), l)
  {
    var h, t := LeaderAppend(g, l, op), g.term[l];
    AckInLog(g, l, t);
    AckedMove(g, h, l, t);
  }

  lemma AckInLog(g: History, v: Id, t: int)
    requires Inv(g) && t in g.reign
    ensures Acked(g, v, t) <= |g.reign[t].log|
  {
    assert Ballot(v, t) in g.acked ==> AckOk(g, Ballot(v, t));
  }

  /** Raising one acknowledgement leaves the others alone. */
  lemma AckedMove(g: History, h: History, v: Id, t: int)
    requires Ballot(v, t) in h.acked && h.acked == g.acked[Ballot(v, t) := h.acked[Ballot(v, t)]]
    requires Acked(g, v, t) <= h.acked[Ballot(v, t)]
    ensures forall w, u :: Acked(g, w, u) <= Acked(h, w, u)
    ensures forall w, u | w != v :: Acked(h, w, u) == Acked(g, w, u)
  {
  }

  lemma LeaderAppendLog(g: History, l: Id, op: Op)
    requires Inv(g) && l in g.members && Rules(g, l)
    requires DomainOk(LeaderAppend(g, l, op)) && Extends(g, LeaderAppend(g, l, op))
    ensures LogOk(LeaderAppend(g, l, op), LeaderAppend(g, l, op).log[l], g.term[l])
  {
    var h, t := LeaderAppend(g, l, op), g.term[l];
    assert ReignOk(g, t) && NodeOk(g, l);
    LogOkGrows(g, h, g.log[l], t);
    LogOkExtend(h, g.log[l], Entry(t, |g.log[l]| + 1, op), t);
  }

  lemma LogOkExtend(g: History, log: seq<Entry>, e: Entry, bound: int)
    requires LogOk(g, log, bound) && 1 <= e.term <= bound && e.index == |log| + 1
    requires e.term in g.reign && g.reign[e.term].log == log + [e]
    ensures LogOk(g, log + [e], bound)
  {
    forall i | 0 <= i < |log + [e]| ensures Anchored(g, log + [e], i) {
      if i < |log| {
        assert Anchored(g, log, i);
        assert (log + [e])[..i + 1] == log[..i + 1];
      }
    }
  }

  lemma LeaderAppendReigns(g: History, l: Id, op: Op)
    requires Inv(g) && l in g.members && Rules(g, l)
    requires DomainOk(LeaderAppend(g, l, op)) && Extends(g, LeaderAppend(g, l, op))
    ensures Reigns(LeaderAppend(g, l, op))
  {
    var h, t := LeaderAppend(g, l, op), g.term[l];
    assert ReignOk(g, t);
    LeaderAppendLog(g, l, op);
    forall u | u in h.reign ensures ReignOk(h, u) {
      if u != t { SameReignOk(g, h, u); }
    }
  }

  lemma LeaderAppendNodes(g: History, l: Id, op: Op)
    requires Inv(g) && l in g.members && Rules(g, l)
    requires DomainOk(LeaderAppend(g, l, op)) && Extends(g, LeaderAppend(g, l, op))
    ensures Nodes(LeaderAppend(g, l, op))
  {
    var h, t := LeaderAppend(g, l, op), g.term[l];
    assert NodeOk(g, l);
    LeaderAppendLog(g, l, op);
    SettledGrows(g, h, t, t, g.log[l][..g.commit[l]]);
    assert h.log[l][..h.commit[l]] == g.log[l][..g.commit[l]];
    OtherNodes(g, h, l);
  }

  /** Acknowledgements of a step taken by v in its current term: new ones are of that term only. */
  lemma OwnTermAck(g: History, h: History, v: Id, w: Id, t: int, k: int)
    requires Inv(g) && DomainOk(h) && Extends(g, h) && v in g.members && RealAck(h, w, t, k)
    requires h.reign.Keys == g.reign.Keys
    requires forall b | b in h.acked && b != Ballot(v, g.term[v]) :: b in g.acked && h.acked[b] == g.acked[b]
    requires Ballot(w, t) != Ballot(v, g.term[v])
    ensures RealAck(g, w, t, k)
  {
    assert Ballot(w, t) in h.acked;
    assert AckOk(g, Ballot(w, t));
    assert ReignGrows(g, h, t);
  }

  /** No node has voted above its term, so acknowledging in the current term touches no promise. */
  lemma OwnTermPromises(g: History, h: History, v: Id)
    requires Inv(g) && DomainOk(h) && Extends(g, h) && v in g.members && Votes(h) && h.vote == g.vote
    requires h.reign.Keys == g.reign.Keys
    requires forall b | b in h.acked && b != Ballot(v, g.term[v]) :: b in g.acked && h.acked[b] == g.acked[b]
    ensures Promises(h)
  {
    forall x, u, t, k | Ballot(x, u) in h.vote && t < u && RealAck(h, x, t, k)
      ensures VoteOk(h, Ballot(x, u)) && Promised(h, x, u, t, k)
    {
      assert VoteOk(g, Ballot(x, u)) && VoteOk(h, Ballot(x, u));
      OwnTermAck(g, h, v, x, t, k);
      PromisedGrows(g, h, x, u, t, k);
    }
  }

  lemma LeaderAppendKeeps(g: History, l: Id, op: Op)
    requires Inv(g) && l in g.members && Rules(g, l)
    requires DomainOk(LeaderAppend(g, l, op)) && Extends(g, LeaderAppend(g, l, op))
    ensures Keeps(LeaderAppend(g, l, op))
  {
    var h := LeaderAppend(g, l, op);
    forall v, t, k | v in h.members && RealAck(h, v, t, k) ensures Kept(h, v, t, k) {
      if Ballot(v, t) != Ballot(l, g.term[l]) {
        OwnTermAck(g, h, l, v, t, k);
        KeptGrows(g, h, v, t, k);
      }
    }
  }

  lemma LeaderAppendAcks(g: History, l: Id, op: Op)
    requires Inv(g) && l in g.members && Rules(g, l)
    requires DomainOk(LeaderAppend(g, l, op)) && Extends(g, LeaderAppend(g, l, op))
    ensures Acks(LeaderAppend(g, l, op))
  {
    var h := LeaderAppend(g, l, op);
    forall b | b in h.acked ensures AckOk(h, b) {
      if b != Ballot(l, g.term[l]) { OldAckOk(g, h, b); }
    }
  }

  lemma LeaderAppendStores(g: History, l: Id, op: Op)
    requires Inv(g) && l in g.members && Rules(g, l)
    requires DomainOk(LeaderAppend(g, l, op)) && Extends(g, LeaderAppend(g, l, op))
    ensures Stores(LeaderAppend(g, l, op))
  {
    var h := LeaderAppend(g, l, op);
    forall v | v in h.members ensures Stored(h, v) {
      if v != l { QuietStored(g, h, v); }
    }
  }

  lemma LeaderAppendAdvances(g: History, l: Id, op: Op)
    requires Inv(g) && l in g.members && Rules(g, l)
    ensures Advance(g, LeaderAppend(g, l, op), l) && Rules(LeaderAppend(g, l, op), l)
  {
    var h := LeaderAppend(g, l, op);
    LeaderAppendGrows(g, l, op);
    LeaderAppendReigns(g, l, op);
    LeaderAppendNodes(g, l, op);
    LeaderAppendAcks(g, l, op);
    LeaderAppendKeeps(g, l, op);
    LeaderAppendStores(g, l, op);
    SameVotes(g, h);
    SameCommits(g, h);
    SameRounds(g, h);
    OwnTermPromises(g, h, l);
  }

  // ---------------------------------------------------------------- Accept

  /** What a log becomes when its owner takes over the first |p| entries of the leader's log. */
  function Adopt(log: seq<Entry>, p: seq<Entry>): (r: seq<Entry>)
    ensures p <= r && (p <= log ==> r == log) && (!(p <= log) ==> r == p)
  {
    if p <= log then log else p
  }

  /** Adopting a prefix of l keeps every prefix that the log shares with l. */
  lemma AdoptKeeps(log: seq<Entry>, p: seq<Entry>, l: seq<Entry>, own: seq<Entry>)
    requires own <= log && own <= l && p <= l
    ensures own <= Adopt(log, p)
  {
    if |p| <= |own| {
      assert p == l[..|p|] == own[..|p|] == log[..|p|];
    } else {
      assert own == l[..|own|] == p[..|own|];
    }
  }

  /** v takes over the first k entries of the leader of its term, in place of whatever conflicts with them. */
  ghost function Accept(g: History, v: Id, k: int): History
    requires DomainOk(g) && v in g.members && g.term[v] in g.reign && 0 <= k <= |g.reign[g.term[v]].log|
  {
    var t := g.term[v];
    var acked := if Acked(g, v, t) < k then k else Acked(g, v, t);
    g.(log := g.log[v := Adopt(g.log[v], g.reign[t].log[..k])], acked := g.acked[Ballot(v, t) := acked])
  }

  ghost predicate MayAccept(g: History, v: Id, k: int)
    requires DomainOk(g) && v in g.members
  {
    var t := g.term[v];
    t in g.reign && g.reign[t].leader != v && 0 <= k <= |g.reign[t].log|
  }

  lemma AcceptGrows(g: History, v: Id, k: int)
    requires Inv(g) && v in g.members && MayAccept(g, v, k)
    ensures Grows(g, Accept(g, v, k), v)
  {
    var h := Accept(g, v, k);
    AckedMove(g, h, v, g.term[v]);
  }

  /** Taking over entries never drops a committed one. */
  lemma AcceptKeepsCommitted(g: History, v: Id, k: int)
    requires Inv(g) && v in g.members && MayAccept(g, v, k) && NodeOk(g, v)
    ensures g.commit[v] <= |Adopt(g.log[v], g.reign[g.term[v]].log[..k])|
    ensures Adopt(g.log[v], g.reign[g.term[v]].log[..k])[..g.commit[v]] == g.log[v][..g.commit[v]]
  {
    var t, c := g.term[v], g.commit[v];
    SettledInReign(g, t, g.log[v][..c], t);
    AdoptKeeps(g.log[v], g.reign[t].log[..k], g.reign[t].log, g.log[v][..c]);
  }

  lemma AcceptNodes(g: History, v: Id, k: int)
    requires Inv(g) && v in g.members && MayAccept(g, v, k)
    requires DomainOk(Accept(g, v, k)) && Extends(g, Accept(g, v, k))
    ensures Nodes(Accept(g, v, k))
  {
    var h, t := Accept(g, v, k), g.term[v];
    assert NodeOk(g, v) && ReignOk(g, t);
    LogOkGrows(g, h, g.log[v], t);
    LogOkGrows(g, h, g.reign[t].log, t);
    LogOkPrefix(h, g.reign[t].log, t, k);
    AcceptKeepsCommitted(g, v, k);
    SettledGrows(g, h, t, t, g.log[v][..g.commit[v]]);
    OtherNodes(g, h, v);
  }

  lemma LogOkPrefix(g: History, log: seq<Entry>, bound: int, k: int)
    requires LogOk(g, log, bound) && 0 <= k <= |log|
    ensures LogOk(g, log[..k], bound)
  {
    forall i | 0 <= i < k ensures Anchored(g, log[..k], i) {
      assert Anchored(g, log, i);
      assert log[..k][..i + 1] == log[..i + 1];
    }
  }

  /** Entries a log had before and lacks after taking over the leader's are entries the leader started without. */
  lemma AcceptKeepsOrSkips(g: History, v: Id, k: int, t: int, j: int)
    requires Inv(g) && v in g.members && MayAccept(g, v, k) && RealAck(g, v, t, j)
    ensures || g.reign[t].log[..j] <= Adopt(g.log[v], g.reign[g.term[v]].log[..k])
            || Skipped(g, t, j, g.term[v])
  {
    var u := g.term[v];
    assert Kept(g, v, t, j);
    assert Ballot(v, t) in g.acked && AckOk(g, Ballot(v, t));
    var own := g.reign[t].log[..j];
    assert ReignOk(g, u);
    if own <= g.log[v] && (t == u || own <= g.reign[u].base) {
      AdoptKeeps(g.log[v], g.reign[u].log[..k], g.reign[u].log, own);
    }
  }

  lemma AcceptKeeps(g: History, v: Id, k: int)
    requires Inv(g) && v in g.members && MayAccept(g, v, k)
    requires DomainOk(Accept(g, v, k)) && Extends(g, Accept(g, v, k))
    ensures Keeps(Accept(g, v, k))
  {
    var h, u := Accept(g, v, k), g.term[v];
    forall w, t, j | w in h.members && RealAck(h, w, t, j) ensures Kept(h, w, t, j) {
      if Ballot(w, t) == Ballot(v, u) && j <= k {
        assert g.reign[u].log[..j] <= g.reign[u].log[..k];
      } else {
        if Ballot(w, t) != Ballot(v, u) { OwnTermAck(g, h, v, w, t, j); }
        if w == v {
          AcceptKeepsOrSkips(g, v, k, t, j);
          if Skipped(g, t, j, u) { SkippedGrows(g, h, t, j, u, u); }
        } else {
          KeptGrows(g, h, w, t, j);
        }
      }
    }
  }

  lemma AcceptAcks(g: History, v: Id, k: int)
    requires Inv(g) && v in g.members && MayAccept(g, v, k)
    requires DomainOk(Accept(g, v, k)) && Extends(g, Accept(g, v, k))
    ensures Acks(Accept(g, v, k))
  {
    var h, t := Accept(g, v, k), g.term[v];
    assert Ballot(v, t) in g.acked ==> AckOk(g, Ballot(v, t));
    forall b | b in h.acked ensures AckOk(h, b) {
      if b != Ballot(v, t) { OldAckOk(g, h, b); }
    }
  }

  lemma AcceptStores(g: History, v: Id, k: int)
    requires Inv(g) && v in g.members && MayAccept(g, v, k)
    requires DomainOk(Accept(g, v, k)) && Extends(g, Accept(g, v, k))
    ensures Stores(Accept(g, v, k))
  {
    var h, t := Accept(g, v, k), g.term[v];
    assert Stored(g, v);
    var own := Acked(g, v, t);
    if k <= own {
      assert g.reign[t].log[..k] == g.reign[t].log[..own][..k];
    }
    forall w | w in h.members ensures Stored(h, w) {
      if w != v { QuietStored(g, h, w); }
    }
  }

  lemma AcceptAdvances(g: History, v: Id, k: int)
    requires Inv(g) && v in g.members && MayAccept(g, v, k)
    ensures Advance(g, Accept(g, v, k), v)
    ensures Acked(Accept(g, v, k), v, g.term[v]) >= k
  {
    var h := Accept(g, v, k);
    AcceptGrows(g, v, k);
    AcceptNodes(g, v, k);
    AcceptAcks(g, v, k);
    AcceptKeeps(g, v, k);
    AcceptStores(g, v, k);
    SameVotes(g, h);
    SameReigns(g, h);
    SameCommits(g, h);
    SameRounds(g, h);
    OwnTermPromises(g, h, v);
  }

  // ---------------------------------------------------------------- commit points

  /** v's commit point moves to m. */
  ghost function MoveCommit(g: History, v: Id, m: int): History {
    g.(commit := g.commit[v := m])
  }

  lemma MoveCommitGrows(g: History, v: Id, m: int)
    requires Inv(g) && v in g.members
    ensures Grows(g, MoveCommit(g, v, m), v)
  {
  }

  lemma MoveCommitNodes(g: History, v: Id, m: int)
    requires Inv(g) && v in g.members && 0 <= m <= |g.log[v]| && Settled(g, g.term[v], g.log[v][..m])
    ensures DomainOk(MoveCommit(g, v, m)) && Nodes(MoveCommit(g, v, m))
  {
    var h := MoveCommit(g, v, m);
    MoveCommitGrows(g, v, m);
    assert NodeOk(g, v);
    LogOkGrows(g, h, g.log[v], g.term[v]);
    SettledGrows(g, h, g.term[v], g.term[v], g.log[v][..m]);
    OtherNodes(g, h, v);
  }

  lemma MoveCommitAdvances(g: History, v: Id, m: int)
    requires Inv(g) && v in g.members && 0 <= m <= |g.log[v]| && Settled(g, g.term[v], g.log[v][..m])
    ensures Advance(g, MoveCommit(g, v, m), v)
  {
    var h := MoveCommit(g, v, m);
    MoveCommitGrows(g, v, m);
    MoveCommitNodes(g, v, m);
    SameVotes(g, h);
    SameReigns(g, h);
    SameAcks(g, h);
    SameCommits(g, h);
    SameRounds(g, h);
    QuietKeeps(g, h);
    QuietStores(g, h);
    QuietPromises(g, h);
  }

  /** The leader of term t declares the first k entries of its log committed. */
  ghost function Declare(g: History, c: Commit): History {
    g.(commits := g.commits + {c})
  }

  lemma DeclareGrows(g: History, l: Id, c: Commit)
    requires Inv(g) && l in g.members && c.term in g.reign && g.reign[c.term].leader == l
    ensures Grows(g, Declare(g, c), l)
  {
  }

  lemma DeclareAdvances(g: History, l: Id, c: Commit)
    requires Inv(g) && l in g.members && Certified(g, c) && g.reign[c.term].leader == l
    ensures Advance(g, Declare(g, c), l)
  {
    var h := Declare(g, c);
    DeclareGrows(g, l, c);
    OldCommitsCertified(g, h);
    CertifiedGrows(g, h, c);
    SameVotes(g, h);
    SameReigns(g, h);
    SameNodes(g, h);
    SameAcks(g, h);
    SameRounds(g, h);
    QuietKeeps(g, h);
    QuietStores(g, h);
    QuietPromises(g, h);
  }

  // ---------------------------------------------------------------- read rounds and vote counting

  ghost function Open(g: History, r: Round, readIndex: int): History {
    g.(rounds := g.rounds[r := Opening(readIndex, g.commits)])
  }

  lemma OpenGrows(g: History, l: Id, r: Round, readIndex: int)
    requires Inv(g) && l in g.members && r.term in g.reign && g.reign[r.term].leader == l && r !in g.rounds
    ensures Grows(g, Open(g, r, readIndex), l)
  {
  }

  lemma OpenAdvances(g: History, l: Id, r: Round, readIndex: int)
    requires Inv(g) && l in g.members && r.term in g.reign && g.reign[r.term].leader == l && r !in g.rounds
    requires forall c | c in g.commits && c.term <= r.term :: c.index <= readIndex
    ensures Evolves(g, Open(g, r, readIndex), l)
  {
    var h := Open(g, r, readIndex);
    OpenGrows(g, l, r, readIndex);
    OldRoundsOk(g, h);
    SameVotes(g, h);
    SameReigns(g, h);
    SameNodes(g, h);
    SameAcks(g, h);
    SameCommits(g, h);
    QuietKeeps(g, h);
    QuietStores(g, h);
    QuietPromises(g, h);
  }

  ghost function Tally(g: History, v: Id, w: set<Id>): History {
    g.(tally := g.tally[v := w])
  }

  lemma TallyGrows(g: History, v: Id, w: set<Id>)
    requires Inv(g) && v in g.members
    ensures Grows(g, Tally(g, v, w), v)
  {
  }

  lemma TallyAdvances(g: History, v: Id, w: set<Id>)
    requires Inv(g) && v in g.members
    ensures Evolves(g, Tally(g, v, w), v)
  {
    var h := Tally(g, v, w);
    TallyGrows(g, v, w);
    SameVotes(g, h);
    SameReigns(g, h);
    SameNodes(g, h);
    SameAcks(g, h);
    SameCommits(g, h);
    SameRounds(g, h);
    QuietKeeps(g, h);
    QuietStores(g, h);
    QuietPromises(g, h);
  }
}
