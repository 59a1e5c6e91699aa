/** Every reachable cluster is explained by some histories: the invariant of runs and its preservation. */
module Reachable {
  import opened Types
  import opened History
  import opened Steps
  import opened Relation
  import opened Handlers
  import opened Outputs
  import opened Cluster
  import N = Node

  // ---------------------------------------------------------------- the invariant

  ghost predicate NodesOk(c: Cluster, g: History)
    requires DomainOk(g)
  {
    && (forall i :: i in c.nodes <==> i in g.members)
    && (forall i {:trigger Holds(g, i, c.nodes[i])} | i in g.members :: Holds(g, i, c.nodes[i]))
  }

  ghost predicate EventOk(g: History, e: Event) {
    e.node in g.members && OutputSound(g, e.node, e.output)
  }

  ghost predicate TraceOk(trace: seq<Event>, g: History) {
    forall j {:trigger EventOk(g, trace[j])} | 0 <= j < |trace| :: EventOk(g, trace[j])
  }

  ghost predicate ReplyOk(c: Cluster, g: History, k: nat)
    requires k in c.replies
  {
    IsRpc(c, k) && ReplySound(g, To(c, k), RequestOf(c, k), c.replies[k])
  }

  ghost predicate RepliesOk(c: Cluster, g: History) {
    forall k {:trigger ReplyOk(c, g, k)} | k in c.replies :: ReplyOk(c, g, k)
  }

  /** At position k of the trace, i asked v for its vote in term t. */
  predicate BallotAt(trace: seq<Event>, k: nat, i: Id, v: Id, t: int) {
    k < |trace| && trace[k].node == i && IsBallot(trace[k].output, t) && trace[k].output.to == v
  }

  /** A voter whose answer is still awaited has not been counted. */
  ghost predicate Awaited(c: Cluster, g: History) {
    forall k, i, v, t {:trigger BallotAt(c.trace, k, i, v, t)}
      | BallotAt(c.trace, k, i, v, t) && k !in c.closed && i in c.nodes && i in g.tally
        && c.nodes[i].status == Candidate && c.nodes[i].currentTerm == t
      :: v !in g.tally[i]
  }

  /** One vote request per candidate, term and voter. */
  ghost predicate OneBallot(trace: seq<Event>) {
    forall j, k, i, v, t {:trigger BallotAt(trace, j, i, v, t), BallotAt(trace, k, i, v, t)}
      | BallotAt(trace, j, i, v, t) && BallotAt(trace, k, i, v, t) :: j == k
  }

  /** At position p of the trace round r was opened, and all that was committed before lies in what it covers. */
  ghost predicate OpenedAt(trace: seq<Event>, g: History, p: nat, r: Round) {
    && p < |trace| && r in g.rounds && r.term in g.reign
    && trace[p] == Event(g.reign[r.term].leader, Opened(r.term, r.number, g.rounds[r].readIndex))
    && forall q | 0 <= q < p && trace[q].output.Committed? ::
         Commit(trace[q].output.entry.term, trace[q].output.entry.index) in g.rounds[r].before
  }

  ghost predicate RoundsOpened(trace: seq<Event>, g: History) {
    forall r | r in g.rounds :: exists p :: OpenedAt(trace, g, p, r)
  }

  predicate AnswerAt(trace: seq<Event>, j: nat, round: int, readIndex: int) {
    && j < |trace| && trace[j].output.Answer? && trace[j].output.ok
    && trace[j].output.round == round && trace[j].output.readIndex == readIndex
  }

  ghost predicate AnsweredFrom(trace: seq<Event>, g: History, j: nat, p: nat, r: Round) {
    && p < j < |trace| && trace[j].output.Answer? && r.number == trace[j].output.round
    && OpenedAt(trace, g, p, r) && Confirmed(g, trace[j].node, r, trace[j].output.readIndex)
  }

  /** Every successful answer comes from a round opened earlier. */
  ghost predicate AnswersOk(trace: seq<Event>, g: History) {
    forall j, round, readIndex {:trigger AnswerAt(trace, j, round, readIndex)} | AnswerAt(trace, j, round, readIndex) ::
      exists p, r :: AnsweredFrom(trace, g, j, p, r)
  }

  predicate StartedAt(trace: seq<Event>, p: nat, e: Entry) {
    p < |trace| && trace[p].output == Started(e)
  }

  /** Results of Start in one term have growing indexes. */
  ghost predicate StartsGrow(trace: seq<Event>) {
    forall p, q, d, e {:trigger StartedAt(trace, p, d), StartedAt(trace, q, e)}
      | p < q && StartedAt(trace, p, d) && StartedAt(trace, q, e) && d.term == e.term :: d.index < e.index
  }

  ghost predicate Explains(g: History, c: Cluster) {
    && Inv(g) && NodesOk(c, g) && TraceOk(c.trace, g) && RepliesOk(c, g)
    && Awaited(c, g) && OneBallot(c.trace)
    && RoundsOpened(c.trace, g) && AnswersOk(c.trace, g) && StartsGrow(c.trace)
  }

  // ---------------------------------------------------------------- the start

  ghost function Genesis(c: Cluster): History {
    var ids := c.nodes.Keys;
    History(ids, map i | i in ids :: 0, map i | i in ids :: [], map i | i in ids :: 0, map[], map[], map[], map[], {},
            map[], map i | i in ids :: {})
  }

  lemma GenesisInv(c: Cluster)
    requires Initial(c)
    ensures Inv(Genesis(c))
  {
  }

  lemma GenesisHolds(c: Cluster, i: Id)
    requires Initial(c) && i in c.nodes && DomainOk(Genesis(c))
    ensures Holds(Genesis(c), i, c.nodes[i])
  {
    var g, n := Genesis(c), c.nodes[i];
    assert Fresh(n, i, c.nodes.Keys);
    assert N.WellFormed(n);
    assert LogRel(g, i, n) && VoteRel(g, i, n) && QueueRel(g, i, n);
  }

  lemma GenesisExplains(c: Cluster)
    requires Initial(c)
    ensures Explains(Genesis(c), c)
  {
    GenesisInv(c);
    forall i | i in c.nodes ensures Holds(Genesis(c), i, c.nodes[i]) {
      GenesisHolds(c, i);
    }
  }

  // ---------------------------------------------------------------- one node moved

  /** Node i became r; what it let out went to the trace; requests may have been closed. */
  predicate Moved(c: Cluster, d: Cluster, i: Id, r: N.Node) {
    && i in c.nodes && d.nodes == c.nodes[i := r] && d.trace == c.trace + Events(i, r.out) && c.closed <= d.closed
  }

  lemma ReadyGood(c: Cluster, g: History, i: Id)
    requires DomainOk(g) && NodesOk(c, g) && i in c.nodes
    ensures Good(g, i, Ready(c, i)) && i in g.members
  {
    assert Holds(g, i, c.nodes[i]);
    SendingKept(g, i, c.nodes[i], Ready(c, i));
  }

  lemma NodesMove(c: Cluster, g: History, d: Cluster, h: History, i: Id, r: N.Node)
    requires Inv(g) && NodesOk(c, g) && Moved(c, d, i, r) && Evolves(g, h, i) && Holds(h, i, r)
    ensures NodesOk(d, h)
  {
    hide Coherent;
    forall j | j in h.members ensures Holds(h, j, d.nodes[j]) {
      if j != i {
        assert Holds(g, j, c.nodes[j]) && SameFor(g, h, j);
        HoldsForOthers(g, h, j, c.nodes[j]);
      }
    }
  }

  lemma TraceMove(c: Cluster, g: History, d: Cluster, h: History, i: Id, r: N.Node)
    requires DomainOk(g) && TraceOk(c.trace, g) && Moved(c, d, i, r) && DomainOk(h) && Extends(g, h)
    requires i in g.members && OutSound(h, i, r.out)
    ensures TraceOk(d.trace, h)
  {
    hide OutputSound;
    forall j | 0 <= j < |d.trace| ensures EventOk(h, d.trace[j]) {
      if j < |c.trace| {
        assert EventOk(g, c.trace[j]);
        OutputGrows(g, h, c.trace[j].node, c.trace[j].output);
      } else {
        assert OutputSound(h, i, r.out[j - |c.trace|]);
      }
    }
  }

  lemma RepliesMove(c: Cluster, g: History, d: Cluster, h: History, i: Id, r: N.Node)
    requires DomainOk(g) && RepliesOk(c, g) && Moved(c, d, i, r) && DomainOk(h) && Extends(g, h)
    requires forall k | k in d.replies && !(k in c.replies && d.replies[k] == c.replies[k]) :: ReplyOk(d, h, k)
    ensures RepliesOk(d, h)
  {
    hide ReplySound;
    forall k | k in d.replies ensures ReplyOk(d, h, k) {
      if k in c.replies && d.replies[k] == c.replies[k] {
        assert ReplyOk(c, g, k);
        ReplyGrows(g, h, To(c, k), RequestOf(c, k), c.replies[k]);
      }
    }
  }

  lemma OldOpened(c: Cluster, g: History, d: Cluster, h: History, p: nat, r: Round)
    requires DomainOk(g) && DomainOk(h) && Extends(g, h) && c.trace <= d.trace && OpenedAt(c.trace, g, p, r)
    ensures OpenedAt(d.trace, h, p, r)
  {
    assert ReignGrows(g, h, r.term);
  }

  /** Answers given before stay explained. */
  lemma OldAnswers(c: Cluster, g: History, d: Cluster, h: History, j: nat)
    requires DomainOk(g) && DomainOk(h) && Extends(g, h) && c.trace <= d.trace
    requires AnswersOk(c.trace, g) && j < |c.trace| && d.trace[j].output.Answer? && d.trace[j].output.ok
    ensures exists p, r :: AnsweredFrom(d.trace, h, j, p, r)
  {
    assert AnswerAt(c.trace, j, c.trace[j].output.round, c.trace[j].output.readIndex);
    var p, r :| AnsweredFrom(c.trace, g, j, p, r);
    OldOpened(c, g, d, h, p, r);
    assert ReignGrows(g, h, r.term);
    assert AnsweredFrom(d.trace, h, j, p, r);
  }

  /** A new answer belongs to a round that was open already. */
  lemma NewAnswer(c: Cluster, g: History, d: Cluster, h: History, j: nat)
    requires DomainOk(g) && DomainOk(h) && Extends(g, h) && c.trace <= d.trace && h.rounds == g.rounds
    requires RoundsOpened(c.trace, g) && |c.trace| <= j < |d.trace| && EventOk(h, d.trace[j])
    requires d.trace[j].output.Answer? && d.trace[j].output.ok
    ensures exists p, r :: AnsweredFrom(d.trace, h, j, p, r)
  {
    var o := d.trace[j].output;
    var t :| Confirmed(h, d.trace[j].node, Round(t, o.round), o.readIndex);
    var r := Round(t, o.round);
    var p :| OpenedAt(c.trace, g, p, r);
    OldOpened(c, g, d, h, p, r);
    assert AnsweredFrom(d.trace, h, j, p, r);
  }

  /** Steps that open no round. */
  lemma ReadsMove(c: Cluster, g: History, d: Cluster, h: History, i: Id, r: N.Node)
    requires DomainOk(g) && RoundsOpened(c.trace, g) && AnswersOk(c.trace, g) && Moved(c, d, i, r)
    requires DomainOk(h) && Extends(g, h) && h.rounds == g.rounds && TraceOk(d.trace, h)
    ensures RoundsOpened(d.trace, h) && AnswersOk(d.trace, h)
  {
    hide OutputSound, OpenedAt, AnsweredFrom;
    forall x | x in h.rounds ensures exists p :: OpenedAt(d.trace, h, p, x) {
      var p :| OpenedAt(c.trace, g, p, x);
      OldOpened(c, g, d, h, p, x);
    }
    forall j: nat, round, readIndex | AnswerAt(d.trace, j, round, readIndex)
      ensures exists p, x :: AnsweredFrom(d.trace, h, j, p, x)
    {
      if j < |c.trace| {
        OldAnswers(c, g, d, h, j);
      } else {
        assert EventOk(h, d.trace[j]);
        NewAnswer(c, g, d, h, j);
      }
    }
  }

  /** Without new results of Start there is nothing to show about them. */
  lemma StartsKept(c: Cluster, d: Cluster, i: Id, r: N.Node)
    requires Moved(c, d, i, r) && StartsGrow(c.trace) && forall o | o in r.out :: !o.Started?
    ensures StartsGrow(d.trace)
  {
    forall q | |c.trace| <= q < |d.trace| ensures !d.trace[q].output.Started? {
      assert r.out[q - |c.trace|] in r.out;
    }
    forall p: nat, q: nat, x, y | p < q && StartedAt(d.trace, p, x) && StartedAt(d.trace, q, y) && x.term == y.term
      ensures x.index < y.index
    {
      assert StartedAt(c.trace, p, x) && StartedAt(c.trace, q, y);
    }
  }

  /** Without new vote requests, and with no one newly a candidate, ballots stay as they are. */
  lemma BallotsKept(c: Cluster, d: Cluster, i: Id, r: N.Node)
    requires Moved(c, d, i, r) && forall o | o in r.out :: !(o.Send? && o.request.RequestVote?)
    ensures forall k: nat, j, v, t :: BallotAt(d.trace, k, j, v, t) ==> BallotAt(c.trace, k, j, v, t)
    ensures OneBallot(c.trace) ==> OneBallot(d.trace)
  {
    forall k | |c.trace| <= k < |d.trace| ensures forall t :: !IsBallot(d.trace[k].output, t) {
      assert r.out[k - |c.trace|] in r.out;
    }
  }

  /** The votes of other candidates are not touched. */
  lemma AwaitedElsewhere(c: Cluster, g: History, d: Cluster, h: History, i: Id, r: N.Node, k: nat, j: Id, v: Id, t: int)
    requires DomainOk(g) && Moved(c, d, i, r) && Grows(g, h, i) && Awaited(c, g) && j != i
    requires BallotAt(c.trace, k, j, v, t) && k !in d.closed && j in d.nodes && j in h.members
    requires d.nodes[j].status == Candidate && d.nodes[j].currentTerm == t
    ensures v !in h.tally[j]
  {
    assert SameFor(g, h, j);
  }

  lemma AwaitedMove(c: Cluster, g: History, d: Cluster, h: History, i: Id, r: N.Node)
    requires DomainOk(g) && NodesOk(c, g) && TraceOk(c.trace, g) && Moved(c, d, i, r) && Grows(g, h, i) && Awaited(c, g)
    requires forall k: nat, j, v, t :: BallotAt(d.trace, k, j, v, t) ==> BallotAt(c.trace, k, j, v, t)
    requires r.status == Candidate ==> c.nodes[i].status == Candidate && r.currentTerm == c.nodes[i].currentTerm
    requires TallyWithin(g, h, i, {})
    ensures Awaited(d, h)
  {
    assert h.members == g.members;
    hide Holds, Extends, OnlyFor;
    forall k: nat, j, v, t | BallotAt(d.trace, k, j, v, t) && k !in d.closed && j in d.nodes && j in h.tally
                        && d.nodes[j].status == Candidate && d.nodes[j].currentTerm == t
      ensures v !in h.tally[j]
    {
      if j != i {
        AwaitedElsewhere(c, g, d, h, i, r, k, j, v, t);
      } else {
        assert EventOk(g, c.trace[k]);
      }
    }
  }

  /** A step whose outputs are plain. */
  lemma QuietMove(c: Cluster, g: History, d: Cluster, h: History, i: Id, r: N.Node)
    requires Explains(g, c) && Moved(c, d, i, r) && Advance(g, h, i) && Good(h, i, r) && Quiet(Ready(c, i), r)
    requires forall k | k in d.replies && !(k in c.replies && d.replies[k] == c.replies[k]) :: ReplyOk(d, h, k)
    ensures Explains(h, d)
  {
    hide Coherent, Holds, Extends, OutSound, Awaited, OneBallot, RoundsOpened, AnswersOk, StartsGrow, TallyWithin,
         OnlyFor;
    NodesMove(c, g, d, h, i, r);
    TraceMove(c, g, d, h, i, r);
    RepliesMove(c, g, d, h, i, r);
    ReadsMove(c, g, d, h, i, r);
    StartsKept(c, d, i, r);
    BallotsKept(c, d, i, r);
    AwaitedMove(c, g, d, h, i, r);
  }

  // ---------------------------------------------------------------- elections

  lemma BallotTerm(c: Cluster, g: History, k: nat, i: Id, v: Id, t: int)
    requires Inv(g) && NodesOk(c, g) && TraceOk(c.trace, g) && BallotAt(c.trace, k, i, v, t)
    ensures i in c.nodes && t <= c.nodes[i].currentTerm && v != i
  {
    assert EventOk(g, c.trace[k]);
    assert StandOk(g, Ballot(i, t));
    assert Holds(g, i, c.nodes[i]);
  }

  lemma NewBallots(c: Cluster, g: History, d: Cluster, i: Id, r: N.Node)
    requires Inv(g) && NodesOk(c, g) && TraceOk(c.trace, g) && OneBallot(c.trace) && Moved(c, d, i, r)
    requires Ballots(r.out, r.currentTerm) && r.currentTerm > c.nodes[i].currentTerm
    ensures OneBallot(d.trace)
    ensures forall k: nat, j, v, t | BallotAt(d.trace, k, j, v, t) && k >= |c.trace| :: j == i && t == r.currentTerm
  {
    hide Coherent, NodesOk, TraceOk;
    forall k: nat, j, v, t | BallotAt(d.trace, k, j, v, t) && k >= |c.trace| ensures j == i && t == r.currentTerm {
      assert r.out[k - |c.trace|] in r.out;
    }
    var past := |c.trace|;
    forall x: nat, k: nat, j, v, t | BallotAt(d.trace, x, j, v, t) && BallotAt(d.trace, k, j, v, t) ensures x == k {
      if x < past && k < past {
        assert BallotAt(c.trace, x, j, v, t) && BallotAt(c.trace, k, j, v, t);
      } else if x < past {
        BallotTerm(c, g, x, j, v, t);
      } else if k < past {
        BallotTerm(c, g, k, j, v, t);
      } else {
        assert d.trace[x] == Event(i, r.out[x - past]) && d.trace[k] == Event(i, r.out[k - past]);
      }
    }
  }

  /** A fresh candidate has counted only its own vote. */
  lemma FirstVote(g: History, i: Id, r: N.Node)
    requires DomainOk(g) && Holds(g, i, r) && r.status == Candidate && r.votesGranted == 1
    ensures g.tally[i] == {i}
  {
    SingletonIs(g.tally[i], i);
  }

  lemma SingletonIs<T>(s: set<T>, x: T)
    requires x in s && |s| == 1
    ensures s == {x}
  {
    assert |s - {x}| == 0;
    assert s == {x} + (s - {x});
  }

  lemma AwaitedElection(c: Cluster, g: History, d: Cluster, h: History, i: Id, r: N.Node)
    requires Inv(g) && NodesOk(c, g) && TraceOk(c.trace, g) && Moved(c, d, i, r) && Grows(g, h, i) && Awaited(c, g)
    requires NodesOk(d, h) && TraceOk(d.trace, h)
    requires forall k: nat, j, v, t | BallotAt(d.trace, k, j, v, t) && k >= |c.trace| :: j == i
    requires r.status == Candidate ==> r.votesGranted == 1
    ensures Awaited(d, h)
  {
    assert h.members == g.members;
    hide Coherent, Extends, OnlyFor, Holds;
    forall k: nat, j, v, t | BallotAt(d.trace, k, j, v, t) && k !in d.closed && j in d.nodes && j in h.tally
                             && d.nodes[j].status == Candidate && d.nodes[j].currentTerm == t
      ensures v !in h.tally[j]
    {
      if j != i {
        assert BallotAt(c.trace, k, j, v, t);
        AwaitedElsewhere(c, g, d, h, i, r, k, j, v, t);
      } else {
        assert Holds(h, i, d.nodes[i]) && EventOk(h, d.trace[k]);
        FirstVote(h, i, r);
      }
    }
  }

  lemma ElectionMove(c: Cluster, g: History, d: Cluster, h: History, i: Id, r: N.Node)
    requires Explains(g, c) && Moved(c, d, i, r) && Advance(g, h, i) && Good(h, i, r) && Elects(Ready(c, i), r)
    requires d.replies == c.replies
    ensures Explains(h, d)
  {
    hide Coherent, Holds, Extends, OutSound, Awaited, OneBallot, RoundsOpened, AnswersOk, StartsGrow, TallyWithin,
         OnlyFor;
    NodesMove(c, g, d, h, i, r);
    TraceMove(c, g, d, h, i, r);
    RepliesMove(c, g, d, h, i, r);
    ReadsMove(c, g, d, h, i, r);
    StartsKept(c, d, i, r);
    NewBallots(c, g, d, i, r);
    AwaitedElection(c, g, d, h, i, r);
  }

  lemma AwaitedVote(c: Cluster, g: History, d: Cluster, h: History, i: Id, r: N.Node, k: nat, p: Id, t: int)
    requires DomainOk(g) && NodesOk(c, g) && TraceOk(c.trace, g) && Moved(c, d, i, r) && Grows(g, h, i) && Awaited(c, g)
    requires OneBallot(c.trace) && BallotAt(c.trace, k, i, p, t) && k in d.closed
    requires forall k: nat, j, v, t :: BallotAt(d.trace, k, j, v, t) ==> BallotAt(c.trace, k, j, v, t)
    requires r.status == Candidate ==> c.nodes[i].status == Candidate && r.currentTerm == c.nodes[i].currentTerm
    requires TallyWithin(g, h, i, if t == c.nodes[i].currentTerm then {p} else {})
    ensures Awaited(d, h)
  {
    assert h.members == g.members;
    hide Holds, Extends, OnlyFor;
    forall x: nat, j, v, u | BallotAt(d.trace, x, j, v, u) && x !in d.closed && j in d.nodes && j in h.tally
                             && d.nodes[j].status == Candidate && d.nodes[j].currentTerm == u
      ensures v !in h.tally[j]
    {
      if j != i {
        AwaitedElsewhere(c, g, d, h, i, r, x, j, v, u);
      } else {
        assert EventOk(g, c.trace[x]);
      }
    }
  }

  /** An answer to a vote request: its sender counts at most the one voter it asked. */
  lemma VoteMove(c: Cluster, g: History, d: Cluster, h: History, i: Id, r: N.Node, k: nat, p: Id, t: int)
    requires Explains(g, c) && Moved(c, d, i, r) && Evolves(g, h, i) && h.rounds == g.rounds && Good(h, i, r)
    requires Quiet(Ready(c, i), r) && BallotAt(c.trace, k, i, p, t) && k in d.closed && d.replies == c.replies
    requires TallyWithin(g, h, i, if t == c.nodes[i].currentTerm then {p} else {})
    ensures Explains(h, d)
  {
    hide Coherent, Holds, Extends, OutSound, Awaited, OneBallot, RoundsOpened, AnswersOk, StartsGrow, TallyWithin,
         OnlyFor;
    NodesMove(c, g, d, h, i, r);
    TraceMove(c, g, d, h, i, r);
    RepliesMove(c, g, d, h, i, r);
    ReadsMove(c, g, d, h, i, r);
    StartsKept(c, d, i, r);
    BallotsKept(c, d, i, r);
    AwaitedVote(c, g, d, h, i, r, k, p, t);
  }

  // ---------------------------------------------------------------- calls

  /** A result of Start comes after all earlier ones of its term. */
  lemma StartsNext(c: Cluster, g: History, d: Cluster, i: Id, r: N.Node, out: seq<Output>, e: Entry)
    requires DomainOk(g) && TraceOk(c.trace, g) && StartsGrow(c.trace) && Moved(c, d, i, r)
    requires r.out == out + [Started(e)] && Plain(out)
    requires e.term in g.reign && e.index == |g.reign[e.term].log| + 1
    ensures StartsGrow(d.trace)
  {
    forall q | |c.trace| <= q < |d.trace| - 1 ensures !d.trace[q].output.Started? {
      assert out[q - |c.trace|] in out;
    }
    forall p: nat, q: nat, x, y | p < q && StartedAt(d.trace, p, x) && StartedAt(d.trace, q, y) && x.term == y.term
      ensures x.index < y.index
    {
      assert StartedAt(c.trace, p, x) && EventOk(g, c.trace[p]);
      if q < |c.trace| { assert StartedAt(c.trace, q, y); }
    }
  }

  lemma NoBallots(out: seq<Output>, e: Entry)
    requires Plain(out)
    ensures forall o | o in out + [Started(e)] :: !(o.Send? && o.request.RequestVote?)
  {
  }

  lemma CallMove(c: Cluster, g: History, d: Cluster, h: History, i: Id, r: N.Node, out: seq<Output>, e: Entry)
    requires Explains(g, c) && Moved(c, d, i, r) && Advance(g, h, i) && Good(h, i, r) && d.replies == c.replies
    requires r.status == Candidate ==> c.nodes[i].status == Candidate && r.currentTerm == c.nodes[i].currentTerm
    requires r.out == out + [Started(e)] && Plain(out)
    requires e.term in g.reign && e.index == |g.reign[e.term].log| + 1
    ensures Explains(h, d)
  {
    hide Coherent, Holds, Extends, OutSound, Awaited, OneBallot, RoundsOpened, AnswersOk, StartsGrow, TallyWithin,
         OnlyFor;
    NodesMove(c, g, d, h, i, r);
    TraceMove(c, g, d, h, i, r);
    RepliesMove(c, g, d, h, i, r);
    ReadsMove(c, g, d, h, i, r);
    StartsNext(c, g, d, i, r, out, e);
    NoBallots(out, e);
    BallotsKept(c, d, i, r);
    AwaitedMove(c, g, d, h, i, r);
  }

  // ---------------------------------------------------------------- reads

  /** A round just opened covers every commit in the trace so far. */
  lemma JustOpened(c: Cluster, g: History, d: Cluster, h: History, i: Id, r: N.Node, x: Round, readIndex: int)
    requires DomainOk(g) && TraceOk(c.trace, g) && Moved(c, d, i, r) && DomainOk(h) && Extends(g, h)
    requires x !in g.rounds && h == Open(g, x, readIndex) && x.term in g.reign && g.reign[x.term].leader == i
    requires |r.out| > 0 && r.out[0] == Opened(x.term, x.number, readIndex)
    ensures OpenedAt(d.trace, h, |c.trace|, x)
  {
    forall q | 0 <= q < |c.trace| && d.trace[q].output.Committed?
      ensures Commit(d.trace[q].output.entry.term, d.trace[q].output.entry.index) in h.rounds[x].before
    {
      assert EventOk(g, c.trace[q]);
    }
  }

  lemma RoundsMove(c: Cluster, g: History, d: Cluster, h: History, i: Id, r: N.Node, x: Round, readIndex: int)
    requires DomainOk(g) && TraceOk(c.trace, g) && Moved(c, d, i, r) && DomainOk(h) && Extends(g, h)
    requires RoundsOpened(c.trace, g) && AnswersOk(c.trace, g)
    requires x !in g.rounds && h == Open(g, x, readIndex) && x.term in g.reign && g.reign[x.term].leader == i
    requires |r.out| > 0 && r.out[0] == Opened(x.term, x.number, readIndex)
    requires forall j | 1 <= j < |r.out| :: !(r.out[j].Answer? && r.out[j].ok)
    ensures RoundsOpened(d.trace, h) && AnswersOk(d.trace, h)
  {
    JustOpened(c, g, d, h, i, r, x, readIndex);
    hide OpenedAt, AnsweredFrom;
    forall y | y in h.rounds ensures exists p :: OpenedAt(d.trace, h, p, y) {
      if y != x {
        var p :| OpenedAt(c.trace, g, p, y);
        OldOpened(c, g, d, h, p, y);
      }
    }
    forall j: nat, round, readIndex | AnswerAt(d.trace, j, round, readIndex)
      ensures exists p, y :: AnsweredFrom(d.trace, h, j, p, y)
    {
      OldAnswers(c, g, d, h, j);
    }
  }

  lemma NoAnswers(c: Cluster, g: History, d: Cluster, i: Id, r: N.Node)
    requires DomainOk(g) && RoundsOpened(c.trace, g) && AnswersOk(c.trace, g) && Moved(c, d, i, r)
    requires forall j | 0 <= j < |r.out| :: !(r.out[j].Answer? && r.out[j].ok)
    requires Extends(g, g)
    ensures RoundsOpened(d.trace, g) && AnswersOk(d.trace, g)
  {
    hide OpenedAt, AnsweredFrom;
    forall y | y in g.rounds ensures exists p :: OpenedAt(d.trace, g, p, y) {
      var p :| OpenedAt(c.trace, g, p, y);
      OldOpened(c, g, d, g, p, y);
    }
    forall j: nat, round, readIndex | AnswerAt(d.trace, j, round, readIndex)
      ensures exists p, y :: AnsweredFrom(d.trace, g, j, p, y)
    {
      OldAnswers(c, g, d, g, j);
    }
  }

  lemma ReadMove(c: Cluster, g: History, d: Cluster, h: History, i: Id, r: N.Node)
    requires Explains(g, c) && Moved(c, d, i, r) && Evolves(g, h, i) && Good(h, i, r) && d.replies == c.replies
    requires h.tally == g.tally && RoundsOpened(d.trace, h) && AnswersOk(d.trace, h)
    requires r.status == Candidate ==> c.nodes[i].status == Candidate && r.currentTerm == c.nodes[i].currentTerm
    requires forall o | o in r.out :: !(o.Send? && o.request.RequestVote?) && !o.Started?
    ensures Explains(h, d)
  {
    hide Coherent, Holds, Extends, OutSound, Awaited, OneBallot, RoundsOpened, AnswersOk, StartsGrow, OnlyFor;
    NodesMove(c, g, d, h, i, r);
    TraceMove(c, g, d, h, i, r);
    RepliesMove(c, g, d, h, i, r);
    StartsKept(c, d, i, r);
    BallotsKept(c, d, i, r);
    AwaitedMove(c, g, d, h, i, r);
  }
}
