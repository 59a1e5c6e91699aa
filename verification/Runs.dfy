/** Every step of every run keeps the cluster explained, and no handler ever trips an index assertion. */
module Runs {
  import opened Types
  import opened History
  import opened Steps
  import opened Relation
  import opened Handlers
  import opened Outputs
  import opened Cluster
  import opened Reachable
  import N = Node

  // ---------------------------------------------------------------- one step of the histories

  /** Histories grow, and whoever acknowledges something anew is in the term that it acknowledges. */
  ghost predicate Continues(g: History, h: History)
    requires DomainOk(g) && DomainOk(h)
  {
    && Extends(g, h)
    && forall v, t {:trigger Acked(h, v, t)} | Acked(h, v, t) > Acked(g, v, t) :: v in h.members && h.term[v] == t
  }

  lemma OtherAcks(g: History, h: History, i: Id, v: Id, t: int)
    requires DomainOk(g) && Grows(g, h, i) && v in g.members && v != i
    ensures Acked(h, v, t) == Acked(g, v, t)
  {
    assert SameFor(g, h, v);
  }

  lemma NewAcks(g: History, h: History, i: Id, v: Id, t: int)
    requires Inv(g) && Evolves(g, h, i) && Acked(h, v, t) > Acked(g, v, t)
    ensures v in h.members && h.term[v] == t
  {
    assert Ballot(v, t) in g.acked ==> AckOk(g, Ballot(v, t));
    assert Ballot(v, t) in h.acked && AckOk(h, Ballot(v, t));
    if v != i && v in g.members { OtherAcks(g, h, i, v, t); }
  }

  lemma StepContinues(g: History, h: History, i: Id)
    requires Inv(g) && Evolves(g, h, i)
    ensures Continues(g, h)
  {
    forall v, t | Acked(h, v, t) > Acked(g, v, t) ensures v in h.members && h.term[v] == t {
      NewAcks(g, h, i, v, t);
    }
  }

  lemma AdvanceContinues(g: History, h: History, i: Id)
    requires Inv(g) && Advance(g, h, i)
    ensures Continues(g, h)
  {
    StepContinues(g, h, i);
  }

  // ---------------------------------------------------------------- requests

  lemma ServeVoteGood(g: History, i: Id, n: N.Node, l: Id, a: VoteArgs, recentLeader: bool) returns (h: History)
    requires Inv(g) && Good(g, i, n) && RequestSound(g, l, RequestVote(a)) && SafeToServe(n, RequestVote(a))
    ensures var s := Serve(n, RequestVote(a), recentLeader);
            Advance(g, h, i) && Good(h, i, s.0) && Quiet(n, s.0) && ReplySound(h, i, RequestVote(a), s.1)
  {
    hide Coherent, Good, N.TakeVote, ReplySound;
    h := TakeVoteGood(g, i, n, l, a);
    TakeVoteQuiet(n, a);
  }

  lemma ServeAppendGood(g: History, i: Id, n: N.Node, l: Id, a: AppendArgs, recentLeader: bool) returns (h: History)
    requires Inv(g) && Good(g, i, n) && RequestSound(g, l, AppendEntries(a)) && SafeToServe(n, AppendEntries(a))
    requires l != i
    ensures var s := Serve(n, AppendEntries(a), recentLeader);
            Advance(g, h, i) && Good(h, i, s.0) && Quiet(n, s.0) && ReplySound(h, i, AppendEntries(a), s.1)
  {
    hide Coherent, Good, N.TakeAppend, N.TakeReadHeartBeat, ReplySound, Leads;
    if a.readRound.Some? {
      h := TakeReadHeartBeatGood(g, i, n, l, a);
      TakeReadHeartBeatQuiet(n, a);
    } else {
      h := TakeAppendGood(g, i, n, l, a);
      TakeAppendQuiet(n, a);
    }
  }

  lemma ServeSnapshotGood(g: History, i: Id, n: N.Node, l: Id, a: SnapshotArgs, recentLeader: bool) returns (h: History)
    requires Inv(g) && Good(g, i, n) && RequestSound(g, l, InstallSnapshot(a)) && SafeToServe(n, InstallSnapshot(a))
    requires l != i
    ensures var s := Serve(n, InstallSnapshot(a), recentLeader);
            Advance(g, h, i) && Good(h, i, s.0) && Quiet(n, s.0) && ReplySound(h, i, InstallSnapshot(a), s.1)
  {
    hide Coherent, Good, N.TakeSnapshot;
    h := TakeSnapshotGood(g, i, n, l, a);
    TakeSnapshotQuiet(n, a);
  }

  lemma ServeGood(g: History, i: Id, n: N.Node, l: Id, request: Request, recentLeader: bool) returns (h: History)
    requires Inv(g) && Good(g, i, n) && RequestSound(g, l, request) && SafeToServe(n, request) && l != i
    ensures var s := Serve(n, request, recentLeader);
            Advance(g, h, i) && Good(h, i, s.0) && Quiet(n, s.0) && ReplySound(h, i, request, s.1)
  {
    hide Coherent, Good, RequestSound, Serve;
    match request
    case RequestVote(a) => h := ServeVoteGood(g, i, n, l, a, recentLeader);
    case PreVote(a, _) => h := ServePreVoteGood(g, i, n, l, request, recentLeader);
    case AppendEntries(a) => h := ServeAppendGood(g, i, n, l, a, recentLeader);
    case InstallSnapshot(a) => h := ServeSnapshotGood(g, i, n, l, a, recentLeader);
  }

  lemma ServePreVoteGood(g: History, i: Id, n: N.Node, l: Id, request: Request, recentLeader: bool) returns (h: History)
    requires Inv(g) && Good(g, i, n) && request.PreVote? && SafeToServe(n, request)
    ensures var s := Serve(n, request, recentLeader);
            Advance(g, h, i) && Good(h, i, s.0) && Quiet(n, s.0) && ReplySound(h, i, request, s.1)
  {
    h := g;
    AdvanceRefl(g, i);
  }

  lemma SentSound(c: Cluster, g: History, k: nat)
    requires DomainOk(g) && NodesOk(c, g) && TraceOk(c.trace, g) && IsRpc(c, k)
    ensures From(c, k) != To(c, k) && From(c, k) in g.members && To(c, k) in g.members
    ensures RequestSound(g, From(c, k), RequestOf(c, k))
  {
    assert EventOk(g, c.trace[k]);
  }

  lemma ServeSafe(g: History, i: Id, n: N.Node, l: Id, request: Request)
    requires DomainOk(g) && Good(g, i, n) && RequestSound(g, l, request)
    ensures SafeToServe(n, request)
  {
  }

  lemma DeliverStep(c: Cluster, g: History, k: nat, recentLeader: bool) returns (h: History)
    requires Explains(g, c) && IsRpc(c, k)
    ensures Safe(c, Deliver(k, recentLeader)) && Explains(h, Step(c, Deliver(k, recentLeader))) && Continues(g, h)
  {
    hide Coherent, TraceOk, RepliesOk, Awaited, OneBallot, RoundsOpened, AnswersOk, StartsGrow, Good, RequestSound,
         SafeToServe, Serve, Quiet, ReplySound, Moved;
    var i, l, request := To(c, k), From(c, k), RequestOf(c, k);
    ReadyGood(c, g, i);
    SentSound(c, g, k);
    ServeSafe(g, i, Ready(c, i), l, request);
    h := ServeGood(g, i, Ready(c, i), l, request, recentLeader);
    var (r, reply) := Serve(Ready(c, i), request, recentLeader);
    var d := Step(c, Deliver(k, recentLeader));
    StepMoves(c, Deliver(k, recentLeader));
    assert ReplyOk(d, h, k);
    QuietMove(c, g, d, h, i, r);
    StepContinues(g, h, i);
  }

  lemma StepMoves(c: Cluster, a: Action)
    requires Possible(c, a) && Safe(c, a)
    ensures match a
            case Deliver(k, recentLeader) =>
              Moved(c, Step(c, a), To(c, k), Serve(Ready(c, To(c, k)), RequestOf(c, k), recentLeader).0)
            case Receive(k, junk) =>
              Moved(c, Step(c, a), From(c, k),
                    Hear(Ready(c, From(c, k)), To(c, k), RequestOf(c, k), Some(c.replies[k]), junk))
            case Fail(k) =>
              Moved(c, Step(c, a), From(c, k), Hear(Ready(c, From(c, k)), To(c, k), RequestOf(c, k), None, 0))
            case ElectionTimeout(i, junk) => Moved(c, Step(c, a), i, N.BeginPreVote(Ready(c, i), junk))
            case QuorumTimeout(i) => Moved(c, Step(c, a), i, N.StepDown(Ready(c, i)))
            case HeartBeatTimeout(i) => Moved(c, Step(c, a), i, N.ScheduleAllReplication(Ready(c, i)))
            case Call(i, op) => Moved(c, Step(c, a), i, N.Start(Ready(c, i), op))
            case Read(i, round, callback) => Moved(c, Step(c, a), i, ReadOrExit(Ready(c, i), round, callback))
            case Compact(i, index, data) => Moved(c, Step(c, a), i, N.DoSnapshot(Ready(c, i), index, data))
            case Restart(i) => Moved(c, Step(c, a), i, N.Boot(c.nodes[i].id, c.nodes[i].peers, c.nodes[i].disk))
    ensures !a.Deliver? ==> Step(c, a).replies == c.replies
  {
    hide Serve, Hear, N.BeginPreVote, N.StepDown, N.ScheduleAllReplication, N.Start, ReadOrExit, N.DoSnapshot, N.Boot,
         N.WellFormed, SafeToServe, SafeToHear;
  }

  // ---------------------------------------------------------------- answers

  lemma HearSafe(g: History, i: Id, n: N.Node, p: Id, request: Request, reply: Option<Reply>)
    requires DomainOk(g) && Good(g, i, n) && RequestSound(g, i, request) && p in g.members && p != i
    requires reply.Some? ==> ReplySound(g, p, request, reply.value)
    ensures SafeToHear(n, p, request, reply)
  {
    N.LastIndexIs(n);
  }

  /** What an answer to an append request says, if it says success. */
  lemma AnswerVouches(g: History, i: Id, p: Id, a: AppendArgs, r: AppendReply)
    requires AppendSound(g, i, a) && ReplySound(g, p, AppendEntries(a), AppendAnswer(r)) && r.success
    ensures Vouches(g, p, a.term, r.readRound, a.prevIndex + |a.entries|)
  {
  }

  lemma HearAppendGood(g: History, i: Id, n: N.Node, p: Id, a: AppendArgs, reply: Option<Reply>, junk: int)
    returns (h: History)
    requires Inv(g) && Good(g, i, n) && AppendSound(g, i, a)
    requires SafeToHear(n, p, AppendEntries(a), reply)
    requires reply.Some? ==> ReplySound(g, p, AppendEntries(a), reply.value)
    ensures var r := Hear(n, p, AppendEntries(a), reply, junk); Advance(g, h, i) && Good(h, i, r) && Quiet(n, r)
    ensures Continues(g, h)
  {
    hide Coherent, Good, N.OnAppendReply, Vouches, N.OwnRequest, Quiet, Advance;
    var answer := if reply.None? then None else Some(reply.value.append);
    if answer.Some? && answer.value.success { AnswerVouches(g, i, p, a, answer.value); }
    h := OnAppendReplyGood(g, i, n, p, a, answer);
    OnAppendReplyQuiet(n, p, a, answer);
    AdvanceContinues(g, h, i);
  }

  lemma HearSnapshotGood(g: History, i: Id, n: N.Node, p: Id, a: SnapshotArgs, reply: Option<Reply>, junk: int)
    returns (h: History)
    requires Inv(g) && Good(g, i, n) && SafeToHear(n, p, InstallSnapshot(a), reply)
    ensures var r := Hear(n, p, InstallSnapshot(a), reply, junk); Advance(g, h, i) && Good(h, i, r) && Quiet(n, r)
    ensures Continues(g, h)
  {
    hide Coherent, Good, N.OnSnapshotReply, Quiet, Advance;
    var answer := if reply.None? then None else Some(reply.value.snapshot);
    h := OnSnapshotReplyGood(g, i, n, p, a.term, answer);
    OnSnapshotReplyQuiet(n, p, a.term, answer);
    AdvanceContinues(g, h, i);
  }

  lemma HearPreVoteGood(g: History, i: Id, n: N.Node, p: Id, request: Request, reply: Option<Reply>, junk: int)
    returns (h: History)
    requires Inv(g) && Good(g, i, n) && request.PreVote? && SafeToHear(n, p, request, reply)
    ensures var r := Hear(n, p, request, reply, junk);
            Advance(g, h, i) && Good(h, i, r) && (Quiet(n, r) || Elects(n, r)) && Continues(g, h)
  {
    hide Coherent, Good, N.OnPreVoteReply, Quiet, Elects, Advance;
    var answer := if reply.None? then None else Some(reply.value.pre);
    h := OnPreVoteReplyGood(g, i, n, request.pre.term, request.round, answer, junk);
    OnPreVoteReplyElects(n, request.pre.term, request.round, answer, junk);
    AdvanceContinues(g, h, i);
  }

  lemma HearVoteGood(g: History, i: Id, n: N.Node, p: Id, a: VoteArgs, reply: Option<Reply>, junk: int)
    returns (h: History)
    requires Inv(g) && Good(g, i, n) && VoteSound(g, i, a) && SafeToHear(n, p, RequestVote(a), reply) && p in g.members
    requires reply.Some? ==> ReplySound(g, p, RequestVote(a), reply.value)
    requires n.status == Candidate && a.term == n.currentTerm ==> i in g.tally && p !in g.tally[i]
    ensures var r := Hear(n, p, RequestVote(a), reply, junk); Evolves(g, h, i) && Good(h, i, r) && Quiet(n, r)
    ensures h.rounds == g.rounds && TallyWithin(g, h, i, if a.term == n.currentTerm then {p} else {})
  {
    hide Coherent, N.OnVoteReply, Quiet, Evolves, LogRel, QueueRel, Roles, OutSound;
    var answer := if reply.None? then None else Some(reply.value.vote);
    h := OnVoteReplyGood(g, i, n, p, a.term, answer, junk);
    OnVoteReplyQuiet(n, a.term, answer, junk);
  }

  /** The action that takes an answer, or a failure. */
  predicate Hears(c: Cluster, a: Action, k: nat, reply: Option<Reply>, junk: int) {
    && IsRpc(c, k) && k !in c.closed
    && match a
       case Receive(j, x) => j == k && x == junk && k in c.replies && reply == Some(c.replies[k])
       case Fail(j) => j == k && junk == 0 && reply == None
       case _ => false
  }

  /** What is known when node i takes the answer to request k. */
  ghost predicate Hearing(c: Cluster, g: History, k: nat, reply: Option<Reply>)
    requires IsRpc(c, k) && DomainOk(g)
  {
    var i, p, request := From(c, k), To(c, k), RequestOf(c, k);
    && Good(g, i, Ready(c, i)) && i in g.members && p in g.members && p != i
    && RequestSound(g, i, request) && (reply.Some? ==> ReplySound(g, p, request, reply.value))
    && SafeToHear(Ready(c, i), p, request, reply)
  }

  lemma HearingNow(c: Cluster, g: History, a: Action, k: nat, reply: Option<Reply>, junk: int)
    requires Explains(g, c) && Hears(c, a, k, reply, junk)
    ensures Hearing(c, g, k, reply) && Possible(c, a) && Safe(c, a)
    ensures var d := Step(c, a);
            && Moved(c, d, From(c, k), Hear(Ready(c, From(c, k)), To(c, k), RequestOf(c, k), reply, junk))
            && k in d.closed && d.replies == c.replies
  {
    hide Coherent, TraceOk, Awaited, OneBallot, RoundsOpened, AnswersOk, StartsGrow, Good, RequestSound,
         SafeToHear, ReplySound, Moved, Hear;
    ReadyGood(c, g, From(c, k));
    SentSound(c, g, k);
    assert reply.Some? ==> ReplyOk(c, g, k);
    HearSafe(g, From(c, k), Ready(c, From(c, k)), To(c, k), RequestOf(c, k), reply);
    StepMoves(c, a);
  }

  lemma HearStep(c: Cluster, g: History, a: Action, k: nat, reply: Option<Reply>, junk: int) returns (h: History)
    requires Explains(g, c) && Hears(c, a, k, reply, junk) && !RequestOf(c, k).RequestVote?
    ensures Possible(c, a) && Safe(c, a) && Explains(h, Step(c, a)) && Continues(g, h)
  {
    HearingNow(c, g, a, k, reply, junk);
    hide Coherent, NodesOk, TraceOk, RepliesOk, Awaited, OneBallot, RoundsOpened, AnswersOk, StartsGrow, Good,
         SafeToHear, Quiet, Elects, ReplySound, Moved, Hear, Step, AppendSound, Continues;
    var i, p, request := From(c, k), To(c, k), RequestOf(c, k);
    var n, d := Ready(c, i), Step(c, a);
    match request
    case PreVote(_, _) =>
      h := HearPreVoteGood(g, i, n, p, request, reply, junk);
      var r := Hear(n, p, request, reply, junk);
      if Quiet(n, r) { QuietMove(c, g, d, h, i, r); } else { ElectionMove(c, g, d, h, i, r); }
    case AppendEntries(x) =>
      h := HearAppendGood(g, i, n, p, x, reply, junk);
      QuietMove(c, g, d, h, i, Hear(n, p, request, reply, junk));
    case InstallSnapshot(x) =>
      h := HearSnapshotGood(g, i, n, p, x, reply, junk);
      QuietMove(c, g, d, h, i, Hear(n, p, request, reply, junk));
  }

  lemma HearVoteStep(c: Cluster, g: History, a: Action, k: nat, reply: Option<Reply>, junk: int) returns (h: History)
    requires Explains(g, c) && Hears(c, a, k, reply, junk) && RequestOf(c, k).RequestVote?
    ensures Possible(c, a) && Safe(c, a) && Explains(h, Step(c, a)) && Continues(g, h)
  {
    HearingNow(c, g, a, k, reply, junk);
    var i, p, x := From(c, k), To(c, k), RequestOf(c, k).vote;
    assert BallotAt(c.trace, k, i, p, x.term);
    hide Coherent, NodesOk, TraceOk, RepliesOk, OneBallot, RoundsOpened, AnswersOk, StartsGrow, Good,
         SafeToHear, Quiet, ReplySound, Moved, Hear, Step, VoteSound;
    var n, d := Ready(c, i), Step(c, a);
    h := HearVoteGood(g, i, n, p, x, reply, junk);
    VoteMove(c, g, d, h, i, Hear(n, p, RequestVote(x), reply, junk), k, p, x.term);
    StepContinues(g, h, i);
  }

  // ---------------------------------------------------------------- timers, calls and restarts

  lemma BeginStep(c: Cluster, g: History, i: Id, junk: int) returns (h: History)
    requires Explains(g, c) && i in c.nodes
    ensures Safe(c, ElectionTimeout(i, junk)) && Explains(h, Step(c, ElectionTimeout(i, junk))) && Continues(g, h)
  {
    hide Coherent, TraceOk, RepliesOk, Awaited, OneBallot, RoundsOpened, AnswersOk, StartsGrow, OutSound, Roles,
         LogRel, QueueRel, VoteRel, Quiet, Elects, Moved, N.BeginPreVote;
    ReadyGood(c, g, i);
    var n, d := Ready(c, i), Step(c, ElectionTimeout(i, junk));
    StepMoves(c, ElectionTimeout(i, junk));
    h := BeginPreVoteGood(g, i, n, junk);
    BeginPreVoteElects(n, junk);
    var r := N.BeginPreVote(n, junk);
    hide Step, NodesOk, Good;
    if Quiet(n, r) { QuietMove(c, g, d, h, i, r); } else { ElectionMove(c, g, d, h, i, r); }
    StepContinues(g, h, i);
  }

  lemma QuorumStep(c: Cluster, g: History, i: Id) returns (h: History)
    requires Explains(g, c) && i in c.nodes && c.nodes[i].status == Leader
    ensures Safe(c, QuorumTimeout(i)) && Explains(h, Step(c, QuorumTimeout(i))) && Continues(g, h)
  {
    hide Coherent, TraceOk, RepliesOk, Awaited, OneBallot, RoundsOpened, AnswersOk, StartsGrow, OutSound, Roles,
         LogRel, QueueRel, VoteRel, Quiet, Moved, N.StepDown;
    ReadyGood(c, g, i);
    var n, d := Ready(c, i), Step(c, QuorumTimeout(i));
    StepMoves(c, QuorumTimeout(i));
    h := g;
    AdvanceRefl(g, i);
    StepDownGood(g, i, n);
    StepDownQuiet(n);
    hide Step, NodesOk, Good;
    QuietMove(c, g, d, h, i, N.StepDown(n));
    StepContinues(g, h, i);
  }

  lemma HeartBeatStep(c: Cluster, g: History, i: Id) returns (h: History)
    requires Explains(g, c) && i in c.nodes && c.nodes[i].status == Leader
    ensures Safe(c, HeartBeatTimeout(i)) && Explains(h, Step(c, HeartBeatTimeout(i))) && Continues(g, h)
  {
    hide Coherent, TraceOk, RepliesOk, Awaited, OneBallot, RoundsOpened, AnswersOk, StartsGrow, OutSound, Roles,
         LogRel, QueueRel, VoteRel, Quiet, Moved, N.ScheduleAllReplication;
    ReadyGood(c, g, i);
    var n, d := Ready(c, i), Step(c, HeartBeatTimeout(i));
    StepMoves(c, HeartBeatTimeout(i));
    h := g;
    AdvanceRefl(g, i);
    ScheduleAllGood(g, i, n);
    ScheduleAllQuiet(n);
    hide Step, NodesOk, Good;
    QuietMove(c, g, d, h, i, N.ScheduleAllReplication(n));
    StepContinues(g, h, i);
  }

  lemma CompactStep(c: Cluster, g: History, i: Id, index: int, data: string) returns (h: History)
    requires Explains(g, c) && i in c.nodes
    ensures Safe(c, Compact(i, index, data)) && Explains(h, Step(c, Compact(i, index, data))) && Continues(g, h)
  {
    hide Coherent, TraceOk, RepliesOk, Awaited, OneBallot, RoundsOpened, AnswersOk, StartsGrow, OutSound, Roles,
         QueueRel, VoteRel, Moved;
    ReadyGood(c, g, i);
    var n := Ready(c, i);
    N.LastIndexIs(n);
    StepMoves(c, Compact(i, index, data));
    h := g;
    AdvanceRefl(g, i);
    DoSnapshotGood(g, i, n, index, data);
    var d, r := Step(c, Compact(i, index, data)), N.DoSnapshot(n, index, data);
    assert Quiet(n, r);
    hide Step, NodesOk, Good;
    QuietMove(c, g, d, h, i, r);
    StepContinues(g, h, i);
  }

  /** A node starts again from its disk. */
  lemma BootMove(c: Cluster, g: History, d: Cluster, i: Id) returns (h: History)
    requires Explains(g, c) && i in c.nodes && d.replies == c.replies
    requires Moved(c, d, i, N.Boot(c.nodes[i].id, c.nodes[i].peers, c.nodes[i].disk))
    ensures Explains(h, d) && Continues(g, h)
  {
    hide Coherent, TraceOk, RepliesOk, Awaited, OneBallot, RoundsOpened, AnswersOk, StartsGrow, OutSound, Roles,
         LogRel, QueueRel, VoteRel, Moved;
    ReadyGood(c, g, i);
    var n := Ready(c, i);
    h := BootGood(g, i, n);
    var r := N.Boot(n.id, n.peers, n.disk);
    assert Quiet(n, r);
    hide NodesOk, Good;
    QuietMove(c, g, d, h, i, r);
    StepContinues(g, h, i);
  }

  lemma RestartStep(c: Cluster, g: History, i: Id) returns (h: History)
    requires Explains(g, c) && i in c.nodes
    ensures Safe(c, Restart(i)) && Explains(h, Step(c, Restart(i))) && Continues(g, h)
  {
    hide Coherent, TraceOk, RepliesOk, Awaited, OneBallot, RoundsOpened, AnswersOk, StartsGrow, OutSound, Roles,
         LogRel, QueueRel, VoteRel, Moved, Continues;
    ReadyGood(c, g, i);
    StepMoves(c, Restart(i));
    hide NodesOk, Good, Step;
    h := BootMove(c, g, Step(c, Restart(i)), i);
  }

  lemma NextInReign(g: History, i: Id, n: N.Node)
    requires DomainOk(g) && Good(g, i, n) && n.status == Leader
    ensures n.currentTerm in g.reign && N.LastIndex(n) == |g.reign[n.currentTerm].log|
  {
    N.LastIndexIs(n);
  }

  lemma CallStep(c: Cluster, g: History, i: Id, op: Op) returns (h: History)
    requires Explains(g, c) && i in c.nodes
    ensures Safe(c, Call(i, op)) && Explains(h, Step(c, Call(i, op))) && Continues(g, h)
  {
    hide Coherent, TraceOk, RepliesOk, Awaited, OneBallot, RoundsOpened, AnswersOk, StartsGrow, OutSound, Roles,
         LogRel, QueueRel, VoteRel, Moved, N.Start;
    ReadyGood(c, g, i);
    var n, d := Ready(c, i), Step(c, Call(i, op));
    StepMoves(c, Call(i, op));
    StartOut(n, op);
    h := StartGood(g, i, n, op);
    var r := N.Start(n, op);
    if n.status == Leader {
      var e := Entry(n.currentTerm, N.LastIndex(n) + 1, op);
      var out :| Plain(out) && r.out == out + [Started(e)];
      NextInReign(g, i, n);
      hide Step, NodesOk, Good;
      CallMove(c, g, d, h, i, r, out, e);
    } else {
      hide Step, NodesOk, Good;
      QuietMove(c, g, d, h, i, r);
    }
    StepContinues(g, h, i);
  }

  lemma ReadRounds(c: Cluster, g: History, d: Cluster, h: History, i: Id, n: N.Node, r: N.Node, round: nat)
    requires Inv(g) && TraceOk(c.trace, g) && RoundsOpened(c.trace, g) && AnswersOk(c.trace, g)
    requires Moved(c, d, i, r) && DomainOk(h) && Extends(g, h)
    requires OpensOnly(g, n, round, h) && (N.OpensRound(n) ==> Leads(g, i, n.currentTerm))
    requires N.OpensRound(n) ==> |r.out| > 0 && r.out[0] == Opened(n.currentTerm, round, n.commitIndex)
    requires forall j | (if N.OpensRound(n) then 1 else 0) <= j < |r.out| :: !(r.out[j].Answer? && r.out[j].ok)
    ensures RoundsOpened(d.trace, h) && AnswersOk(d.trace, h) && h.tally == g.tally
  {
    hide Coherent, TraceOk, RoundsOpened, AnswersOk, Moved;
    if N.OpensRound(n) {
      RoundsMove(c, g, d, h, i, r, Round(n.currentTerm, round), n.commitIndex);
    } else {
      NoAnswers(c, g, d, i, r);
    }
  }

  lemma LeaderLeads(g: History, i: Id, n: N.Node)
    requires DomainOk(g) && Good(g, i, n) && n.status == Leader
    ensures Leads(g, i, n.currentTerm)
  {
  }

  lemma OutMembers(out: seq<Output>, lo: nat)
    requires lo <= 1 && forall j | lo <= j < |out| :: PlainOutput(out[j])
    requires lo == 1 ==> |out| > 0 && out[0].Opened?
    ensures forall o | o in out :: !(o.Send? && o.request.RequestVote?) && !o.Started?
  {
  }

  /** A read that stays clear of the assertion. */
  lemma ReadMoves(c: Cluster, g: History, d: Cluster, i: Id, round: nat, callback: nat) returns (h: History)
    requires Explains(g, c) && Possible(c, Read(i, round, callback)) && d.replies == c.replies
    requires N.WellFormed(Ready(c, i)) && N.ReadSafe(Ready(c, i))
    requires Moved(c, d, i, N.ReadIndex(Ready(c, i), round, callback))
    ensures Explains(h, d) && Continues(g, h)
  {
    hide Coherent, TraceOk, RepliesOk, Awaited, OneBallot, RoundsOpened, AnswersOk, StartsGrow, OutSound, Roles,
         LogRel, QueueRel, VoteRel, Moved, N.ReadIndex, OpensOnly, Leads;
    ReadyGood(c, g, i);
    var n := Ready(c, i);
    var r := N.ReadIndex(n, round, callback);
    ReadIndexOut(n, round, callback);
    OutMembers(r.out, if N.OpensRound(n) then 1 else 0);
    h := ReadIndexGood(g, i, n, round, callback);
    if N.OpensRound(n) { LeaderLeads(g, i, n); }
    hide NodesOk, Good;
    ReadRounds(c, g, d, h, i, n, r, round);
    ReadMove(c, g, d, h, i, r);
    StepContinues(g, h, i);
  }

  lemma ReadStep(c: Cluster, g: History, i: Id, round: nat, callback: nat) returns (h: History)
    requires Explains(g, c) && Possible(c, Read(i, round, callback))
    ensures Safe(c, Read(i, round, callback)) && Explains(h, Step(c, Read(i, round, callback))) && Continues(g, h)
  {
    hide Coherent, TraceOk, RepliesOk, Awaited, OneBallot, RoundsOpened, AnswersOk, StartsGrow, OutSound, Roles,
         LogRel, QueueRel, VoteRel, Moved, N.ReadIndex, N.Boot, Continues;
    ReadyGood(c, g, i);
    StepMoves(c, Read(i, round, callback));
    var d := Step(c, Read(i, round, callback));
    hide NodesOk, Good, Step;
    if N.ReadSafe(Ready(c, i)) { h := ReadMoves(c, g, d, i, round, callback); } else { h := BootMove(c, g, d, i); }
  }

  // ---------------------------------------------------------------- runs

  /** Whatever may happen next, its handler stays clear of the index assertions and keeps the cluster explained. */
  lemma StepExplained(c: Cluster, g: History, a: Action) returns (h: History)
    requires Explains(g, c) && Possible(c, a)
    ensures Safe(c, a) && Explains(h, Step(c, a)) && Continues(g, h)
  {
    hide Explains, Step, Safe;
    match a
    case Deliver(k, recentLeader) => h := DeliverStep(c, g, k, recentLeader);
    case Receive(k, junk) =>
      if RequestOf(c, k).RequestVote? {
        h := HearVoteStep(c, g, a, k, Some(c.replies[k]), junk);
      } else {
        h := HearStep(c, g, a, k, Some(c.replies[k]), junk);
      }
    case Fail(k) =>
      if RequestOf(c, k).RequestVote? {
        h := HearVoteStep(c, g, a, k, None, 0);
      } else {
        h := HearStep(c, g, a, k, None, 0);
      }
    case ElectionTimeout(i, junk) => h := BeginStep(c, g, i, junk);
    case QuorumTimeout(i) => h := QuorumStep(c, g, i);
    case HeartBeatTimeout(i) => h := HeartBeatStep(c, g, i);
    case Call(i, op) => h := CallStep(c, g, i, op);
    case Read(i, round, callback) => h := ReadStep(c, g, i, round, callback);
    case Compact(i, index, data) => h := CompactStep(c, g, i, index, data);
    case Restart(i) => h := RestartStep(c, g, i);
  }

  ghost predicate Successive(g: History, h: History) {
    DomainOk(g) && DomainOk(h) && Continues(g, h)
  }

  ghost predicate Later(g: History, h: History) {
    DomainOk(g) && DomainOk(h) && Extends(g, h)
  }

  ghost predicate AllExplain(s: seq<Cluster>, gs: seq<History>) {
    |gs| == |s| && forall k {:trigger Explains(gs[k], s[k])} | 0 <= k < |s| :: Explains(gs[k], s[k])
  }

  ghost predicate AllSuccessive(gs: seq<History>) {
    forall j, k {:trigger Successive(gs[j], gs[k])} | 0 <= j && k == j + 1 < |gs| :: Successive(gs[j], gs[k])
  }

  ghost predicate AllLater(gs: seq<History>) {
    forall j, k {:trigger Later(gs[j], gs[k])} | 0 <= j <= k < |gs| :: Later(gs[j], gs[k])
  }

  /** Histories gs explain the states s, each growing from the one before. */
  ghost predicate Chain(s: seq<Cluster>, gs: seq<History>) {
    |s| > 0 && AllExplain(s, gs) && gs[0].acked == map[] && AllSuccessive(gs) && AllLater(gs)
  }

  lemma {:induction false} RunExplained(s: seq<Cluster>, actions: seq<Action>) returns (gs: seq<History>)
    requires Run(s, actions)
    ensures Chain(s, gs)
    decreases |actions|
  {
    hide Explains, Successive, Extends, Next, Initial;
    var last := |actions|;
    if last == 0 {
      GenesisExplains(s[0]);
      gs := [Genesis(s[0])];
      ExplainsDomain(gs[0], s[0]);
      ExtendsRefl(gs[0]);
    } else {
      var before := RunExplained(s[..last], actions[..last - 1]);
      assert Explains(before[last - 1], s[..last][last - 1]);
      var h := NextExplained(s[last - 1], before[last - 1], actions[last - 1], s[last]);
      gs := before + [h];
      ChainGrows(s, before, h);
    }
  }

  lemma NextExplained(c: Cluster, g: History, a: Action, d: Cluster) returns (h: History)
    requires Explains(g, c) && Next(c, a, d)
    ensures Explains(h, d) && Successive(g, h)
  {
    hide Explains, Continues;
    h := StepExplained(c, g, a);
    ExplainsDomain(g, c);
    ExplainsDomain(h, d);
  }

  lemma ChainGrows(s: seq<Cluster>, before: seq<History>, h: History)
    requires |s| > 1 && Chain(s[..|s| - 1], before)
    requires Explains(h, s[|s| - 1]) && Successive(before[|s| - 2], h)
    ensures Chain(s, before + [h])
  {
    SuccessiveIsLater(before[|s| - 2], h);
    hide Explains, Successive, Later;
    ExplainMore(s, before, h);
    LaterMore(before, h);
    SuccessiveMore(before, h);
    hide AllExplain, AllSuccessive, AllLater;
  }

  lemma ExplainMore(s: seq<Cluster>, before: seq<History>, h: History)
    requires |s| > 0 && AllExplain(s[..|s| - 1], before) && Explains(h, s[|s| - 1])
    ensures AllExplain(s, before + [h])
  {
    hide Explains;
    var gs := before + [h];
    forall k | 0 <= k < |s| ensures Explains(gs[k], s[k]) {
      if k < |s| - 1 { assert Explains(before[k], s[..|s| - 1][k]); }
    }
  }

  lemma SuccessiveMore(before: seq<History>, h: History)
    requires |before| > 0 && AllSuccessive(before) && Successive(before[|before| - 1], h)
    ensures AllSuccessive(before + [h])
  {
    hide Successive;
    var gs := before + [h];
    forall j, k {:trigger Successive(gs[j], gs[k])} | 0 <= j && k == j + 1 < |gs| ensures Successive(gs[j], gs[k]) {
      if k < |before| { assert Successive(before[j], before[k]); }
    }
  }

  lemma LaterMore(before: seq<History>, h: History)
    requires |before| > 0 && AllLater(before) && Later(before[|before| - 1], h) && Later(h, h)
    ensures AllLater(before + [h])
  {
    hide Later;
    var gs, last := before + [h], |before|;
    forall j, k {:trigger Later(gs[j], gs[k])} | 0 <= j <= k < |gs| ensures Later(gs[j], gs[k]) {
      if j < k == last {
        assert Later(before[j], before[last - 1]);
        LaterTrans(before[j], before[last - 1], h);
      } else if k < last {
        assert Later(before[j], before[k]);
      }
    }
  }

  lemma SuccessiveIsLater(g: History, h: History)
    requires Successive(g, h)
    ensures Later(g, h) && Later(h, h)
  {
    ExtendsRefl(h);
  }

  lemma LaterTrans(g: History, h: History, k: History)
    requires Later(g, h) && Later(h, k)
    ensures Later(g, k)
  {
    ExtendsTrans(g, h, k);
  }

  lemma ExplainsDomain(g: History, c: Cluster)
    requires Explains(g, c)
    ensures DomainOk(g)
  {
  }

  lemma ExtendsRefl(g: History)
    requires DomainOk(g)
    ensures Extends(g, g)
  {
  }
}
