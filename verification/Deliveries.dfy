/**
 * What must come out of a run: every command that is committed is pushed, every read callback is answered, and a
 * snapshot is always the data of some compaction.
 */
module Deliveries {
  import opened Types
  import opened Cluster
  import opened Effects
  import opened Reachable
  import R = Relation
  import N = Node
  import Runs
  import Safety

  // ---------------------------------------------------------------- one step

  /** The node whose handler runs. */
  function Actor(c: Cluster, a: Action): Id
    requires Possible(c, a)
  {
    match a
    case Deliver(k, _) => To(c, k)
    case Receive(k, _) => From(c, k)
    case Fail(k) => From(c, k)
    case _ => a.node
  }

  /** The node starts again from its disk: it was restarted, or a read tripped the index assertion. */
  predicate Restarts(c: Cluster, a: Action, i: Id) {
    a == Restart(i)
    || (a.Read? && a.node == i && i in c.nodes && N.WellFormed(Ready(c, i)) && !N.ReadSafe(Ready(c, i)))
  }

  /** The action gives node i a snapshot that it must install. */
  predicate Installing(c: Cluster, a: Action, i: Id) {
    && a.Deliver? && IsRpc(c, a.rpc) && To(c, a.rpc) == i && RequestOf(c, a.rpc).InstallSnapshot?
    && var s := RequestOf(c, a.rpc).snapshot;
       c.nodes[i].currentTerm <= s.term && c.nodes[i].snapIndex < s.lastIndex
  }

  /** The action is the answer to the open round of node i. */
  predicate Confirming(c: Cluster, a: Action, i: Id) {
    && a.Receive? && IsRpc(c, a.rpc) && From(c, a.rpc) == i && a.rpc in c.replies
    && RequestOf(c, a.rpc).AppendEntries? && c.replies[a.rpc].AppendAnswer?
    && var request, reply := RequestOf(c, a.rpc).append, Some(c.replies[a.rpc].append);
       AnswersRead(Ready(c, i), request, reply) && Awaits(Ready(c, i), reply.value.readRound.value)
  }

  /** Node i gave up a leader's office because it lost its quorum. */
  predicate StepsDown(n: N.Node, r: N.Node) {
    Onward(n, r) && SameApplied(n, r) && Closes(n, r, false)
  }

  predicate Boots(n: N.Node, r: N.Node) {
    r == N.Boot(n.id, n.peers, n.disk)
  }

  /** What the step does to the node that acts, and lets out. */
  predicate Acts(c: Cluster, a: Action, i: Id, n: N.Node, r: N.Node)
    requires Possible(c, a)
  {
    if Restarts(c, a, i) then Boots(n, r)
    else if Installing(c, a, i) then Installs(n, RequestOf(c, a.rpc).snapshot, r)
    else if Confirming(c, a, i) then Confirms(n, To(c, a.rpc), r)
    else if a.QuorumTimeout? then StepsDown(n, r)
    else if a.Read? then Asks(n, a.round, a.callback, r)
    else if a.Compact? then CompactsTo(n, a.index, a.data, r)
    else Ordinary(n, r)
  }

  lemma ServeActs(c: Cluster, k: nat, recentLeader: bool)
    requires Possible(c, Deliver(k, recentLeader)) && Safe(c, Deliver(k, recentLeader))
    ensures var n := Ready(c, To(c, k));
            Acts(c, Deliver(k, recentLeader), To(c, k), n, Serve(n, RequestOf(c, k), recentLeader).0)
  {
    var n := Ready(c, To(c, k));
    match RequestOf(c, k)
    case RequestVote(a) => TakeVoteOrdinary(n, a);
    case PreVote(_, _) =>
      SameFields(n, n);
      StillIsOrdinary(n, n);
    case AppendEntries(a) =>
      if N.IsReadHeartBeat(a) { TakeReadHeartBeatOrdinary(n, a); } else { TakeAppendOrdinary(n, a); }
    case InstallSnapshot(a) => TakeSnapshotInstalls(n, a);
    hide N.TakeVote, N.TakeAppend, N.TakeReadHeartBeat, N.TakeSnapshot, Ordinary, Installs, N.WellFormed;
  }

  lemma HearActs(c: Cluster, a: Action, k: nat, reply: Option<Reply>, junk: int)
    requires Runs.Hears(c, a, k, reply, junk) && Possible(c, a) && Safe(c, a)
    ensures var n := Ready(c, From(c, k));
            Acts(c, a, From(c, k), n, Hear(n, To(c, k), RequestOf(c, k), reply, junk))
  {
    var n, p := Ready(c, From(c, k)), To(c, k);
    match RequestOf(c, k)
    case RequestVote(v) =>
      OnVoteReplyOrdinary(n, v.term, if reply.None? then None else Some(reply.value.vote), junk);
    case PreVote(v, round) =>
      OnPreVoteReplyOrdinary(n, v.term, round, if reply.None? then None else Some(reply.value.pre), junk);
    case AppendEntries(v) =>
      var answer := if reply.None? then None else Some(reply.value.append);
      if Confirming(c, a, From(c, k)) {
        OnAppendReplyConfirms(n, p, v, answer);
      } else {
        OnAppendReplyOrdinary(n, p, v, answer);
      }
    case InstallSnapshot(v) =>
      OnSnapshotReplyOrdinary(n, p, v.term, if reply.None? then None else Some(reply.value.snapshot));
    hide N.OnVoteReply, N.OnPreVoteReply, N.OnAppendReply, N.OnSnapshotReply, Ordinary, Confirms, N.WellFormed;
  }

  lemma OwnActs(c: Cluster, a: Action, i: Id)
    requires Possible(c, a) && Safe(c, a) && !a.Deliver? && !a.Receive? && !a.Fail? && i == a.node
    ensures var n := Ready(c, i);
            Acts(c, a, i, n,
                 match a
                 case ElectionTimeout(_, junk) => N.BeginPreVote(n, junk)
                 case QuorumTimeout(_) => N.StepDown(n)
                 case HeartBeatTimeout(_) => N.ScheduleAllReplication(n)
                 case Call(_, op) => N.Start(n, op)
                 case Read(_, round, callback) => ReadOrExit(n, round, callback)
                 case Compact(_, index, data) => N.DoSnapshot(n, index, data)
                 case Restart(_) => N.Boot(c.nodes[i].id, c.nodes[i].peers, c.nodes[i].disk))
  {
    var n := Ready(c, i);
    match a
    case ElectionTimeout(_, junk) =>
      BeginPreVoteStill(n, junk);
      StillIsOrdinary(n, N.BeginPreVote(n, junk));
    case QuorumTimeout(_) => StepDownCloses(n);
    case HeartBeatTimeout(_) =>
      ScheduleAllStill(n);
      StillIsOrdinary(n, N.ScheduleAllReplication(n));
    case Call(_, op) => StartOrdinary(n, op);
    case Read(_, round, callback) => if N.ReadSafe(n) { ReadIndexAsks(n, round, callback); }
    case Compact(_, index, data) => DoSnapshotCompacts(n, index, data);
    case Restart(_) =>
    hide N.BeginPreVote, N.StepDown, N.ScheduleAllReplication, N.Start, N.ReadIndex, N.DoSnapshot, N.Boot, Ordinary,
         Still, Asks, CompactsTo, N.WellFormed, N.ReadSafe;
  }

  /** Every step does to its actor what Acts says, touches no other node, and appends what the actor let out. */
  lemma StepActs(c: Cluster, a: Action)
    requires Possible(c, a) && Safe(c, a)
    ensures var i, d := Actor(c, a), Step(c, a);
            && i in c.nodes && i in d.nodes && Moved(c, d, i, d.nodes[i]) && Acts(c, a, i, Ready(c, i), d.nodes[i])
  {
    Runs.StepMoves(c, a);
    match a
    case Deliver(k, recentLeader) => ServeActs(c, k, recentLeader);
    case Receive(k, junk) => HearActs(c, a, k, Some(c.replies[k]), junk);
    case Fail(k) => HearActs(c, a, k, None, 0);
    case _ => OwnActs(c, a, a.node);
    hide Serve, Hear, Acts, N.BeginPreVote, N.StepDown, N.ScheduleAllReplication, N.Start, ReadOrExit, N.DoSnapshot,
         N.Boot, N.WellFormed, SafeToServe, SafeToHear, Step;
  }

  // ---------------------------------------------------------------- steps of a run

  /** What node i let out among these events, in order. */
  function OutputsBy(i: Id, events: seq<Event>): seq<Output> {
    if events == [] then []
    else OutputsBy(i, events[..|events| - 1])
         + if events[|events| - 1].node == i then [events[|events| - 1].output] else []
  }

  lemma {:induction false} OutputsOf(i: Id, j: Id, out: seq<Output>)
    ensures OutputsBy(j, Events(i, out)) == if j == i then out else []
  {
    if out != [] {
      var rest := out[..|out| - 1];
      OutputsOf(i, j, rest);
      assert Events(i, out)[..|Events(i, out)| - 1] == Events(i, rest);
      assert out == rest + [out[|out| - 1]];
    }
  }

  /** What node i let out in step k. */
  function LetOut(s: seq<Cluster>, k: nat, i: Id): seq<Output>
    requires k + 1 < |s|
  {
    if |s[k].trace| <= |s[k + 1].trace| then OutputsBy(i, s[k + 1].trace[|s[k].trace|..]) else []
  }

  /** Step k of a run, for node i: what it did, if it acted, or that it was left alone. */
  lemma RunActs(s: seq<Cluster>, actions: seq<Action>, k: nat, i: Id)
    requires Run(s, actions) && k < |actions| && i in s[k].nodes
    ensures Possible(s[k], actions[k]) && Safe(s[k], actions[k]) && s[k + 1] == Step(s[k], actions[k])
    ensures i in s[k + 1].nodes && |s[k].trace| <= |s[k + 1].trace|
    ensures N.WellFormed(s[k].nodes[i]) && N.WellFormed(s[k + 1].nodes[i])
    ensures s[k].nodes[i].lastApplied == s[k].nodes[i].commitIndex
    ensures s[k + 1].nodes[i].lastApplied == s[k + 1].nodes[i].commitIndex
    ensures s[k + 1].trace == s[k].trace + Events(Actor(s[k], actions[k]), s[k + 1].nodes[Actor(s[k], actions[k])].out)
    ensures if i == Actor(s[k], actions[k])
            then Acts(s[k], actions[k], i, Ready(s[k], i), s[k + 1].nodes[i])
                 && LetOut(s, k, i) == s[k + 1].nodes[i].out
            else s[k + 1].nodes[i] == s[k].nodes[i] && LetOut(s, k, i) == []
  {
    Safety.IndexSafety(s, actions, k);
    Safety.IndexSafety(s, actions, k + 1);
    var c, a := s[k], actions[k];
    assert Next(c, a, s[k + 1]);
    StepActs(c, a);
    var j := Actor(c, a);
    hide Run, Step, Acts, N.WellFormed, Safe;
    OutputsOf(j, i, s[k + 1].nodes[j].out);
    assert s[k + 1].trace[|c.trace|..] == Events(j, s[k + 1].nodes[j].out);
  }

  // ---------------------------------------------------------------- applying

  /**
   * What a step pushes goes to the queue, and it is exactly what became committed on the node: the commands from the
   * old commit index to the new one, in order and once each, or the one snapshot that was installed.
   */
  lemma StepPushes(s: seq<Cluster>, actions: seq<Action>, k: nat, i: Id)
    requires Run(s, actions) && k < |actions| && i in s[k].nodes && !Restarts(s[k], actions[k], i)
    ensures i in s[k + 1].nodes && |s[k].trace| <= |s[k + 1].trace|
    ensures var n, r, pushed := s[k].nodes[i], s[k + 1].nodes[i], Pushed(LetOut(s, k, i));
            && r.applyQueue == n.applyQueue + pushed
            && if Installing(s[k], actions[k], i)
               then var a := RequestOf(s[k], actions[k].rpc).snapshot;
                    && pushed == [SnapshotMsg(a.data, a.lastIndex, a.lastTerm)]
                    && r.commitIndex == N.Max(n.commitIndex, a.lastIndex) && r.snapIndex == a.lastIndex
               else Covers(pushed, n.commitIndex, r.commitIndex)
  {
    RunActs(s, actions, k, i);
    hide Run, Step, N.WellFormed, Safe, Closes, ReadStays;
    var n, r := Ready(s[k], i), s[k + 1].nodes[i];
    assert Pushed([]) == [] && Pushed(n.out) == [];
    if i == Actor(s[k], actions[k]) && !Installing(s[k], actions[k], i) {
      PushesOf(s[k], actions[k], i, n, r);
    }
  }

  lemma PushesOf(c: Cluster, a: Action, i: Id, n: N.Node, r: N.Node)
    requires Possible(c, a) && Acts(c, a, i, n, r) && !Restarts(c, a, i) && !Installing(c, a, i)
    requires n.out == [] && n.lastApplied == n.commitIndex && r.lastApplied == r.commitIndex
    ensures r.applyQueue == n.applyQueue + Pushed(r.out) && Covers(Pushed(r.out), n.commitIndex, r.commitIndex)
  {
    hide Closes, ReadStays, SendsOwn, Restarts, Installing, Confirming;
    assert Pushed(n.out) == [];
  }

  /** The snapshot point from which node i last started. */
  function StartPoint(s: seq<Cluster>, actions: seq<Action>, k: nat, i: Id): int
    requires |s| == |actions| + 1 && k < |s|
    decreases k
  {
    if k == 0 then 0
    else if Restarts(s[k - 1], actions[k - 1], i) && i in s[k].nodes then s[k].nodes[i].snapIndex
    else StartPoint(s, actions, k - 1, i)
  }

  lemma CoversJoin(q: seq<ApplyMsg>, more: seq<ApplyMsg>, a: int, b: int, c: int)
    requires Covers(q, a, b) && Covers(more, b, c)
    ensures Covers(q + more, a, c)
  {
  }

  lemma FirstQueue(s: seq<Cluster>, actions: seq<Action>, i: Id)
    requires Run(s, actions) && i in s[0].nodes
    ensures s[0].nodes[i].applyQueue == [] && s[0].nodes[i].commitIndex == 0 && s[0].nodes[i].activeRead == None
    ensures s[0].nodes[i].snapIndex == 0
  {
    assert Fresh(s[0].nodes[i], i, s[0].nodes.Keys);
  }

  lemma NodesStay(s: seq<Cluster>, actions: seq<Action>, k: nat, i: Id)
    requires Run(s, actions) && 0 < k < |s| && i in s[k].nodes
    ensures i in s[k - 1].nodes
  {
    var gs := Runs.RunExplained(s, actions);
    assert Explains(gs[k - 1], s[k - 1]) && Explains(gs[k], s[k]);
    Safety.ChainExtends(s, gs, k - 1, k);
  }

  /** A queue without snapshot messages has every command from where the node last started to its commit index. */
  lemma {:induction false} QueueIsWhole(s: seq<Cluster>, actions: seq<Action>, k: nat, i: Id)
    requires Run(s, actions) && k < |s| && i in s[k].nodes && R.NoSnapshots(s[k].nodes[i].applyQueue)
    ensures Covers(s[k].nodes[i].applyQueue, StartPoint(s, actions, k, i), s[k].nodes[i].commitIndex)
    decreases k
  {
    if k == 0 {
      FirstQueue(s, actions, i);
    } else {
      NodesStay(s, actions, k, i);
      RunActs(s, actions, k - 1, i);
      hide Run, Step, N.WellFormed, Safe;
      if Restarts(s[k - 1], actions[k - 1], i) {
        assert i == Actor(s[k - 1], actions[k - 1]);
        StartsEmpty(s, actions, k, i);
      } else {
        QueueExtends(s, actions, k, i);
      }
    }
  }

  lemma StartsEmpty(s: seq<Cluster>, actions: seq<Action>, k: nat, i: Id)
    requires Run(s, actions) && 0 < k < |s| && i in s[k - 1].nodes && Restarts(s[k - 1], actions[k - 1], i)
    ensures i in s[k].nodes && s[k].nodes[i].applyQueue == [] && s[k].nodes[i].activeRead == None
    ensures s[k].nodes[i].commitIndex == s[k].nodes[i].snapIndex == s[k - 1].nodes[i].snapIndex
    ensures s[k].nodes[i].disk == s[k - 1].nodes[i].disk && LetOut(s, k - 1, i) == []
  {
    RunActs(s, actions, k - 1, i);
    Safety.Durability(s, actions, k - 1, i);
    assert Acts(s[k - 1], actions[k - 1], i, Ready(s[k - 1], i), s[k].nodes[i]);
    BootStarts(s[k - 1].nodes[i].id, s[k - 1].nodes[i].peers, s[k - 1].nodes[i].disk);
    hide Run, Step, Safe, N.Boot;
  }

  lemma {:induction false} QueueExtends(s: seq<Cluster>, actions: seq<Action>, k: nat, i: Id)
    requires Run(s, actions) && 0 < k < |s| && i in s[k - 1].nodes && i in s[k].nodes
    requires !Restarts(s[k - 1], actions[k - 1], i) && R.NoSnapshots(s[k].nodes[i].applyQueue)
    ensures Covers(s[k].nodes[i].applyQueue, StartPoint(s, actions, k, i), s[k].nodes[i].commitIndex)
    decreases k, 0
  {
    StepPushes(s, actions, k - 1, i);
    var n, r, pushed := s[k - 1].nodes[i], s[k].nodes[i], Pushed(LetOut(s, k - 1, i));
    OnlyCommands(n.applyQueue, pushed);
    assert |pushed| == 1 ==> pushed[0].CommandMsg?;
    assert !Installing(s[k - 1], actions[k - 1], i);
    hide Run, Step, N.WellFormed, Safe, Installing, Restarts, Covers, LetOut;
    QueueIsWhole(s, actions, k - 1, i);
    CoversJoin(n.applyQueue, pushed, StartPoint(s, actions, k - 1, i), n.commitIndex, r.commitIndex);
  }

  lemma OnlyCommands(q: seq<ApplyMsg>, more: seq<ApplyMsg>)
    requires R.NoSnapshots(q + more)
    ensures R.NoSnapshots(q) && R.NoSnapshots(more)
  {
    assert forall x | 0 <= x < |q| :: q[x] == (q + more)[x];
    assert forall x | 0 <= x < |more| :: more[x] == (q + more)[|q| + x];
  }

  // ---------------------------------------------------------------- reads

  /** The read callbacks that a node owes an answer. */
  function Owed(n: N.Node): seq<nat> {
    if n.activeRead.Some? then n.activeRead.value.callbacks else []
  }

  /** The callbacks of some answers. */
  function CallbacksOf(answers: seq<Output>): seq<nat> {
    if answers == [] then []
    else CallbacksOf(answers[..|answers| - 1])
         + if answers[|answers| - 1].Answer? then [answers[|answers| - 1].callback] else []
  }

  /** What a step means for the reads of node i: n before, r after, and the answers given. */
  predicate ReadMove(c: Cluster, a: Action, i: Id, n: N.Node, r: N.Node, answers: seq<Output>)
    requires Possible(c, a)
  {
    if Confirming(c, a, i) then
      && n.activeRead.Some?
      && if Completes(n, To(c, a.rpc)) then r.activeRead == None && AnswersAll(answers, n.activeRead.value, true)
         else answers == []
              && r.activeRead == Some(n.activeRead.value.(acks := n.activeRead.value.acks + {To(c, a.rpc)}))
    else if a.Read? && a.node == i then
      if n.status != Leader then answers == [Answer(a.callback, false, -1, -1)] && r.activeRead == n.activeRead
      else if !n.currentTermCommitted then
        answers == [Answer(a.callback, false, -2, -2)] && r.activeRead == n.activeRead
      else
        && answers == []
        && r.activeRead == Some(if n.activeRead.Some?
             then n.activeRead.value.(callbacks := n.activeRead.value.callbacks + [a.callback])
             else N.ReadRound(a.round, n.currentTerm, n.commitIndex, {n.id}, [a.callback]))
    else
      || (answers == [] && r.activeRead == n.activeRead)
      || (n.activeRead.Some? && r.activeRead == None && AnswersAll(answers, n.activeRead.value, false)
          && (r.currentTerm > n.currentTerm || a == QuorumTimeout(i)))
  }

  lemma ClosedNode(n: N.Node, r: N.Node, ok: bool)
    requires n.out == [] && Closes(n, r, ok)
    ensures r.activeRead == None
    ensures if n.activeRead.None? then ReadAnswers(r.out) == []
            else AnswersAll(ReadAnswers(r.out), n.activeRead.value, ok)
  {
    assert ReadAnswers(n.out) == [];
    assert ReadAnswers(r.out)[0..] == ReadAnswers(r.out);
  }

  lemma ReadsOf(c: Cluster, a: Action, i: Id, n: N.Node, r: N.Node)
    requires Possible(c, a) && i == Actor(c, a) && Acts(c, a, i, n, r) && !Restarts(c, a, i) && n.out == []
    ensures ReadMove(c, a, i, n, r, ReadAnswers(r.out))
  {
    assert ReadAnswers(n.out) == [];
    if Closes(n, r, false) { ClosedNode(n, r, false); }
    if Closes(n, r, true) { ClosedNode(n, r, true); }
    hide Closes, Feeds, SendsOwn, SameApplied, Restarts, Installing, Confirming, AnswersAll;
  }

  /**
   * Reads in a run.  The answer that completes a majority for the open round answers every callback with success, in
   * order, and any other answer to it only counts; a read is refused at once, joins the open round or opens one; and a
   * round fails only because a later term has come or the leader lost its quorum.
   */
  lemma ReadsAnswered(s: seq<Cluster>, actions: seq<Action>, k: nat, i: Id)
    requires Run(s, actions) && k < |actions| && i in s[k].nodes && !Restarts(s[k], actions[k], i)
    ensures Possible(s[k], actions[k]) && i in s[k + 1].nodes
    ensures if i == Actor(s[k], actions[k])
            then ReadMove(s[k], actions[k], i, s[k].nodes[i], s[k + 1].nodes[i], ReadAnswers(LetOut(s, k, i)))
            else LetOut(s, k, i) == [] && s[k + 1].nodes[i].activeRead == s[k].nodes[i].activeRead
  {
    RunActs(s, actions, k, i);
    hide Run, Step, Safe, N.WellFormed, Acts, Restarts, ReadMove;
    if i == Actor(s[k], actions[k]) {
      ReadsOf(s[k], actions[k], i, Ready(s[k], i), s[k + 1].nodes[i]);
      ReadyReads(s[k], actions[k], i, s[k + 1].nodes[i], ReadAnswers(LetOut(s, k, i)));
    }
  }

  lemma ReadyReads(c: Cluster, a: Action, i: Id, r: N.Node, answers: seq<Output>)
    requires Possible(c, a) && i in c.nodes && ReadMove(c, a, i, Ready(c, i), r, answers)
    ensures ReadMove(c, a, i, c.nodes[i], r, answers)
  {
    hide Confirming, AnswersAll;
  }

  /** A success stands for a majority of the cluster; a failure for a refusal, a later term or a lost quorum. */
  lemma AnswerMeans(s: seq<Cluster>, actions: seq<Action>, k: nat, i: Id, o: Output)
    requires Run(s, actions) && k < |actions| && i in s[k].nodes && !Restarts(s[k], actions[k], i)
    requires o in ReadAnswers(LetOut(s, k, i)) && o.Answer?
    ensures Possible(s[k], actions[k]) && i in s[k + 1].nodes && i == Actor(s[k], actions[k])
    ensures o.ok ==> Confirming(s[k], actions[k], i) && Completes(s[k].nodes[i], To(s[k], actions[k].rpc))
    ensures !o.ok ==>
      || (actions[k].Read? && (s[k].nodes[i].status != Leader || !s[k].nodes[i].currentTermCommitted))
      || s[k + 1].nodes[i].currentTerm > s[k].nodes[i].currentTerm
      || actions[k] == QuorumTimeout(i)
  {
    ReadsAnswered(s, actions, k, i);
    hide Run, Confirming, Completes, Restarts;
    assert ReadAnswers([]) == [];
  }

  lemma {:induction false} CallbacksAre(answers: seq<Output>, a: N.ReadRound, ok: bool)
    requires AnswersAll(answers, a, ok)
    ensures CallbacksOf(answers) == a.callbacks
  {
    if answers == [] {
      assert a.callbacks == [];
    } else {
      var last := |answers| - 1;
      var b := a.(callbacks := a.callbacks[..last]);
      assert forall j | 0 <= j < last :: answers[..last][j] == answers[j];
      CallbacksAre(answers[..last], b, ok);
      assert a.callbacks == b.callbacks + [a.callbacks[last]];
    }
  }

  /** The callbacks handed to node i by reads since it last started. */
  function ReadsAsked(s: seq<Cluster>, actions: seq<Action>, k: nat, i: Id): multiset<nat>
    requires |s| == |actions| + 1 && k < |s|
    decreases k
  {
    if k == 0 || Restarts(s[k - 1], actions[k - 1], i) then multiset{}
    else ReadsAsked(s, actions, k - 1, i) + AskedNow(actions[k - 1], i)
  }

  /** The callbacks that node i has answered since it last started. */
  function Told(s: seq<Cluster>, actions: seq<Action>, k: nat, i: Id): multiset<nat>
    requires |s| == |actions| + 1 && k < |s|
    decreases k
  {
    if k == 0 || Restarts(s[k - 1], actions[k - 1], i) then multiset{}
    else Told(s, actions, k - 1, i) + multiset(CallbacksOf(ReadAnswers(LetOut(s, k - 1, i))))
  }

  /** The callbacks owed before and asked for now are those answered now and still owed. */
  predicate Balances(n: N.Node, asked: multiset<nat>, answers: seq<Output>, r: N.Node) {
    multiset(Owed(n)) + asked == multiset(CallbacksOf(answers)) + multiset(Owed(r))
  }

  lemma CloseBalances(n: N.Node, answers: seq<Output>, r: N.Node, ok: bool)
    requires n.activeRead.Some? && r.activeRead == None && AnswersAll(answers, n.activeRead.value, ok)
    ensures Balances(n, multiset{}, answers, r)
  {
    CallbacksAre(answers, n.activeRead.value, ok);
  }

  lemma RefusalBalances(n: N.Node, o: Output, r: N.Node)
    requires o.Answer? && r.activeRead == n.activeRead
    ensures Balances(n, multiset{o.callback}, [o], r)
  {
    assert [o][..0] == [];
    assert CallbacksOf([o]) == CallbacksOf([o][..0]) + [o.callback] == [o.callback];
  }

  lemma QuietBalances(n: N.Node, r: N.Node)
    requires Owed(r) == Owed(n)
    ensures Balances(n, multiset{}, [], r)
  {
  }

  lemma AskBalances(n: N.Node, callback: nat, r: N.Node)
    requires Owed(r) == Owed(n) + [callback]
    ensures Balances(n, multiset{callback}, [], r)
  {
  }

  lemma ReadBalance(c: Cluster, a: Action, i: Id, n: N.Node, r: N.Node, answers: seq<Output>)
    requires Possible(c, a) && ReadMove(c, a, i, n, r, answers)
    ensures Balances(n, if a.Read? && a.node == i then multiset{a.callback} else multiset{}, answers, r)
  {
    hide Balances, Completes, AnswersAll;
    if Confirming(c, a, i) {
      if Completes(n, To(c, a.rpc)) { CloseBalances(n, answers, r, true); } else { QuietBalances(n, r); }
    } else if a.Read? && a.node == i {
      if n.status != Leader {
        RefusalBalances(n, Answer(a.callback, false, -1, -1), r);
      } else if !n.currentTermCommitted {
        RefusalBalances(n, Answer(a.callback, false, -2, -2), r);
      } else {
        AskBalances(n, a.callback, r);
      }
    } else if answers == [] && r.activeRead == n.activeRead {
      QuietBalances(n, r);
    } else {
      CloseBalances(n, answers, r, false);
    }
  }

  /** The callbacks handed to node i in step k. */
  function AskedNow(a: Action, i: Id): multiset<nat> {
    if a.Read? && a.node == i then multiset{a.callback} else multiset{}
  }

  lemma StepBalances(s: seq<Cluster>, actions: seq<Action>, k: nat, i: Id)
    requires Run(s, actions) && k < |actions| && i in s[k].nodes && !Restarts(s[k], actions[k], i)
    ensures i in s[k + 1].nodes
    ensures Balances(s[k].nodes[i], AskedNow(actions[k], i), ReadAnswers(LetOut(s, k, i)), s[k + 1].nodes[i])
  {
    ReadsAnswered(s, actions, k, i);
    hide Run, Restarts, ReadMove, LetOut, Balances, Owed;
    var answers := ReadAnswers(LetOut(s, k, i));
    if i == Actor(s[k], actions[k]) {
      ReadBalance(s[k], actions[k], i, s[k].nodes[i], s[k + 1].nodes[i], answers);
    } else {
      LeftAlone(s[k].nodes[i], s[k + 1].nodes[i]);
      assert answers == [] && AskedNow(actions[k], i) == multiset{};
      QuietBalances(s[k].nodes[i], s[k + 1].nodes[i]);
    }
  }

  lemma Adds(asked: multiset<nat>, now: multiset<nat>, told: multiset<nat>, answers: multiset<nat>,
             owed: multiset<nat>, left: multiset<nat>)
    requires asked == told + owed && owed + now == answers + left
    ensures asked + now == told + answers + left
  {
    forall x ensures (asked + now)[x] == (told + answers + left)[x] {
      assert asked[x] == (told + owed)[x] && (owed + now)[x] == (answers + left)[x];
    }
  }

  /**
   * No callback is lost or answered twice: since the node last started, what it was asked is what it has answered and
   * what it owes.
   */
  lemma {:induction false} CallbacksConserved(s: seq<Cluster>, actions: seq<Action>, k: nat, i: Id)
    requires Run(s, actions) && k < |s| && i in s[k].nodes
    ensures ReadsAsked(s, actions, k, i) == Told(s, actions, k, i) + multiset(Owed(s[k].nodes[i]))
    decreases k
  {
    if k == 0 {
      FirstQueue(s, actions, i);
    } else {
      assert |s| == |actions| + 1;
      hide Run, Restarts, LetOut, ReadAnswers, Actor;
      NodesStay(s, actions, k, i);
      if Restarts(s[k - 1], actions[k - 1], i) {
        StartsEmpty(s, actions, k, i);
      } else {
        CallbacksConserved(s, actions, k - 1, i);
        StepBalances(s, actions, k - 1, i);
        Adds(ReadsAsked(s, actions, k - 1, i), AskedNow(actions[k - 1], i), Told(s, actions, k - 1, i),
             multiset(CallbacksOf(ReadAnswers(LetOut(s, k - 1, i)))),
             multiset(Owed(s[k - 1].nodes[i])), multiset(Owed(s[k].nodes[i])));
        hide Owed, AskedNow;
      }
    }
  }

  lemma LeftAlone(n: N.Node, r: N.Node)
    requires r.activeRead == n.activeRead
    ensures Owed(r) == Owed(n)
  {
  }

  // ---------------------------------------------------------------- snapshots

  /** Step j compacted some node up to index x, with this data. */
  predicate TookEffect(s: seq<Cluster>, actions: seq<Action>, j: nat, x: int, data: string) {
    && j < |actions| && j < |s| && actions[j].Compact? && actions[j].index == x && actions[j].data == data
    && actions[j].node in s[j].nodes
    && s[j].nodes[actions[j].node].snapIndex < x <= s[j].nodes[actions[j].node].commitIndex
  }

  /** Before state k some node was compacted up to index x, with this data. */
  predicate Made(s: seq<Cluster>, actions: seq<Action>, k: nat, x: int, data: string) {
    exists j | 0 <= j < k :: TookEffect(s, actions, j, x, data)
  }

  /** A snapshot on disk, on its way or in a queue is what some compaction was given for its index. */
  ghost predicate DiskMade(s: seq<Cluster>, actions: seq<Action>, k: nat, n: N.Node) {
    n.snapIndex > 0 ==> Made(s, actions, k, n.snapIndex, n.disk.snapshot)
  }

  ghost predicate OutputMade(s: seq<Cluster>, actions: seq<Action>, k: nat, o: Output) {
    && (IsSnapshot(o) ==>
          1 <= o.request.snapshot.lastIndex
          && Made(s, actions, k, o.request.snapshot.lastIndex, o.request.snapshot.data))
    && (o.Apply? && o.msg.SnapshotMsg? ==> 1 <= o.msg.index && Made(s, actions, k, o.msg.index, o.msg.data))
  }

  lemma {:induction false} PushedMember(out: seq<Output>, o: Output)
    requires o in out && o.Apply?
    ensures o.msg in Pushed(out)
  {
    if o != out[|out| - 1] {
      assert o in out[..|out| - 1];
      PushedMember(out[..|out| - 1], o);
    }
  }

  lemma MadeLater(s: seq<Cluster>, actions: seq<Action>, k: nat, m: nat, x: int, data: string)
    requires k <= m && Made(s, actions, k, x, data)
    ensures Made(s, actions, m, x, data)
  {
    var j :| 0 <= j < k && TookEffect(s, actions, j, x, data);
    assert 0 <= j < m;
  }

  /** What a step does to the snapshot of the node that acts. */
  predicate SnapshotStep(c: Cluster, a: Action, i: Id, n: N.Node, r: N.Node) {
    if Installing(c, a, i) then
      r.snapIndex == RequestOf(c, a.rpc).snapshot.lastIndex && r.disk.snapshot == RequestOf(c, a.rpc).snapshot.data
    else if a.Compact? && a.node == i && n.snapIndex < a.index <= n.commitIndex then
      r.snapIndex == a.index && r.disk.snapshot == a.data
    else SameSnapshot(n, r)
  }

  /** What the acting node lets out of snapshots: its own, sent, or the one it was given, pushed. */
  predicate SnapshotsOut(c: Cluster, a: Action, i: Id, n: N.Node, r: N.Node) {
    forall o | o in r.out ::
      && (IsSnapshot(o) ==> Carries(o, n))
      && (o.Apply? && o.msg.SnapshotMsg? ==>
            Installing(c, a, i)
            && o.msg.data == RequestOf(c, a.rpc).snapshot.data && o.msg.index == RequestOf(c, a.rpc).snapshot.lastIndex)
  }

  lemma NoPush(n: N.Node, r: N.Node, o: Output)
    requires n.out == [] && o in r.out && o.Apply? && (SameApplied(n, r) || Feeds(n, r))
    ensures o.msg.CommandMsg?
  {
    PushedMember(r.out, o);
    assert Pushed(n.out) == [];
    if !SameApplied(n, r) {
      var q := r.applyQueue[|n.applyQueue|..];
      assert Pushed(r.out) == q;
      var x :| 0 <= x < |q| && q[x] == o.msg;
    }
  }

  lemma InstallPushes(n: N.Node, a: SnapshotArgs, r: N.Node, o: Output)
    requires n.out == [] && Installs(n, a, r) && o in r.out && o.Apply?
    ensures o.msg == SnapshotMsg(a.data, a.lastIndex, a.lastTerm)
  {
    PushedMember(r.out, o);
    assert Pushed(n.out) == [];
  }

  lemma SnapshotStepOf(c: Cluster, a: Action, i: Id, n: N.Node, r: N.Node)
    requires Possible(c, a) && i == Actor(c, a) && Acts(c, a, i, n, r) && !Restarts(c, a, i)
    ensures SnapshotStep(c, a, i, n, r)
  {
    hide Restarts, Completes, Closes, ReadStays, Carries, Feeds, SameApplied, Pushed, SendsOwn;
  }

  lemma OwnSnapshots(c: Cluster, a: Action, i: Id, n: N.Node, r: N.Node, o: Output)
    requires Possible(c, a) && i == Actor(c, a) && Acts(c, a, i, n, r) && !Restarts(c, a, i) && n.out == []
    requires o in r.out && IsSnapshot(o)
    ensures Carries(o, n)
  {
    hide Restarts, Installing, Confirming, Completes, Closes, ReadStays, Carries, Feeds, SameApplied, Pushed;
  }

  lemma SnapshotsOf(c: Cluster, a: Action, i: Id, n: N.Node, r: N.Node)
    requires Possible(c, a) && i == Actor(c, a) && Acts(c, a, i, n, r) && !Restarts(c, a, i) && n.out == []
    ensures SnapshotStep(c, a, i, n, r) && SnapshotsOut(c, a, i, n, r)
  {
    SnapshotStepOf(c, a, i, n, r);
    forall o | o in r.out && IsSnapshot(o) ensures Carries(o, n) {
      OwnSnapshots(c, a, i, n, r, o);
    }
    forall o | o in r.out && o.Apply? && o.msg.SnapshotMsg?
      ensures Installing(c, a, i) && o.msg.data == RequestOf(c, a.rpc).snapshot.data
              && o.msg.index == RequestOf(c, a.rpc).snapshot.lastIndex
    {
      if Installing(c, a, i) { InstallPushes(n, RequestOf(c, a.rpc).snapshot, r, o); } else { NoPush(n, r, o); }
    }
    hide Acts, Restarts, SnapshotStep, Carries;
  }

  lemma SnapshotActs(s: seq<Cluster>, actions: seq<Action>, k: nat, i: Id)
    requires Run(s, actions) && k < |actions| && i in s[k].nodes && !Restarts(s[k], actions[k], i)
    requires Possible(s[k], actions[k]) && i == Actor(s[k], actions[k])
    ensures i in s[k + 1].nodes
    ensures SnapshotStep(s[k], actions[k], i, s[k].nodes[i], s[k + 1].nodes[i])
    ensures SnapshotsOut(s[k], actions[k], i, s[k].nodes[i], s[k + 1].nodes[i])
  {
    RunActs(s, actions, k, i);
    hide Run, Restarts, Acts, Step, Safe, N.WellFormed;
    SnapshotsOf(s[k], actions[k], i, Ready(s[k], i), s[k + 1].nodes[i]);
    assert forall o: Output | IsSnapshot(o) :: Carries(o, Ready(s[k], i)) == Carries(o, s[k].nodes[i]);
  }

  /** Compaction puts its own data on disk, a snapshot install the data received; all else leaves the snapshot alone. */
  lemma SnapshotOnDisk(s: seq<Cluster>, actions: seq<Action>, k: nat, i: Id)
    requires Run(s, actions) && k < |actions| && i in s[k].nodes
    ensures i in s[k + 1].nodes
    ensures SnapshotStep(s[k], actions[k], i, s[k].nodes[i], s[k + 1].nodes[i])
  {
    RunActs(s, actions, k, i);
    if Restarts(s[k], actions[k], i) {
      StartsEmpty(s, actions, k + 1, i);
    } else if i == Actor(s[k], actions[k]) {
      SnapshotActs(s, actions, k, i);
    }
    hide Run, Acts, Step, Safe, N.WellFormed, N.ReadSafe;
  }

  ghost predicate AllMade(s: seq<Cluster>, actions: seq<Action>, k: nat)
    requires k < |s|
  {
    && (forall i | i in s[k].nodes :: DiskMade(s, actions, k, s[k].nodes[i]))
    && (forall p | 0 <= p < |s[k].trace| :: OutputMade(s, actions, k, s[k].trace[p].output))
  }

  lemma DiskMadeNext(s: seq<Cluster>, actions: seq<Action>, k: nat, i: Id)
    requires Run(s, actions) && k < |actions| && i in s[k].nodes && AllMade(s, actions, k)
    ensures i in s[k + 1].nodes && DiskMade(s, actions, k + 1, s[k + 1].nodes[i])
  {
    SnapshotOnDisk(s, actions, k, i);
    var c, a, n, r := s[k], actions[k], s[k].nodes[i], s[k + 1].nodes[i];
    assert DiskMade(s, actions, k, n);
    if Installing(c, a, i) {
      assert OutputMade(s, actions, k, c.trace[a.rpc].output);
      MadeLater(s, actions, k, k + 1, r.snapIndex, r.disk.snapshot);
    } else if a.Compact? && a.node == i && n.snapIndex < a.index <= n.commitIndex {
      assert TookEffect(s, actions, k, r.snapIndex, r.disk.snapshot);
    } else if r.snapIndex > 0 {
      MadeLater(s, actions, k, k + 1, r.snapIndex, r.disk.snapshot);
    }
  }

  lemma OutputMadeLater(s: seq<Cluster>, actions: seq<Action>, k: nat, o: Output)
    requires OutputMade(s, actions, k, o)
    ensures OutputMade(s, actions, k + 1, o)
  {
    if IsSnapshot(o) { MadeLater(s, actions, k, k + 1, o.request.snapshot.lastIndex, o.request.snapshot.data); }
    if o.Apply? && o.msg.SnapshotMsg? { MadeLater(s, actions, k, k + 1, o.msg.index, o.msg.data); }
  }

  lemma NewOutputMade(s: seq<Cluster>, actions: seq<Action>, k: nat, i: Id, o: Output)
    requires Run(s, actions) && k < |actions| && i in s[k].nodes && AllMade(s, actions, k)
    requires Possible(s[k], actions[k]) && i == Actor(s[k], actions[k]) && i in s[k + 1].nodes
    requires o in s[k + 1].nodes[i].out
    ensures OutputMade(s, actions, k, o)
  {
    var c, a, n := s[k], actions[k], s[k].nodes[i];
    if Restarts(c, a, i) {
      RunActs(s, actions, k, i);
      BootStarts(n.id, n.peers, n.disk);
    } else {
      SnapshotActs(s, actions, k, i);
      assert DiskMade(s, actions, k, n);
      if o.Apply? && o.msg.SnapshotMsg? {
        assert Installing(c, a, i) && OutputMade(s, actions, k, c.trace[a.rpc].output);
      }
    }
  }

  /**
   * The data of a snapshot is never invented or mixed up: on every disk, in every request and in every message to a
   * state machine, it is what some compaction up to that index was given.
   */
  lemma {:induction false} SnapshotsAreMade(s: seq<Cluster>, actions: seq<Action>, k: nat)
    requires Run(s, actions) && k < |s|
    ensures AllMade(s, actions, k)
    decreases k
  {
    if k == 0 {
      forall i | i in s[0].nodes ensures DiskMade(s, actions, 0, s[0].nodes[i]) {
        FirstQueue(s, actions, i);
      }
    } else {
      SnapshotsAreMade(s, actions, k - 1);
      AllMadeNext(s, actions, k - 1);
    }
  }

  lemma TraceNext(s: seq<Cluster>, actions: seq<Action>, k: nat) returns (i: Id)
    requires Run(s, actions) && k < |actions|
    ensures Possible(s[k], actions[k]) && i == Actor(s[k], actions[k])
    ensures i in s[k].nodes && i in s[k + 1].nodes && s[k + 1].trace == s[k].trace + Events(i, s[k + 1].nodes[i].out)
  {
    Safety.IndexSafety(s, actions, k);
    assert Next(s[k], actions[k], s[k + 1]);
    i := Actor(s[k], actions[k]);
    StepActs(s[k], actions[k]);
    hide Run, Step, Safe, Acts;
    RunActs(s, actions, k, i);
  }

  lemma DisksNext(s: seq<Cluster>, actions: seq<Action>, k: nat, d: Cluster)
    requires Run(s, actions) && k < |actions| && AllMade(s, actions, k) && d == s[k + 1]
    ensures forall i | i in d.nodes :: DiskMade(s, actions, k + 1, d.nodes[i])
  {
    assert |s| == |actions| + 1;
    hide Run, DiskMade, OutputMade;
    forall i | i in d.nodes ensures DiskMade(s, actions, k + 1, d.nodes[i]) {
      NodesStay(s, actions, k + 1, i);
      DiskMadeNext(s, actions, k, i);
    }
  }

  lemma OutputsNext(s: seq<Cluster>, actions: seq<Action>, k: nat, d: Cluster)
    requires Run(s, actions) && k < |actions| && AllMade(s, actions, k) && d == s[k + 1]
    ensures forall p | 0 <= p < |d.trace| :: OutputMade(s, actions, k + 1, d.trace[p].output)
  {
    assert |s| == |actions| + 1;
    hide Run, DiskMade, OutputMade;
    var c := s[k];
    var i := TraceNext(s, actions, k);
    forall p | 0 <= p < |d.trace| ensures OutputMade(s, actions, k + 1, d.trace[p].output) {
      if p >= |c.trace| {
        assert d.trace[p].output == d.nodes[i].out[p - |c.trace|];
        NewOutputMade(s, actions, k, i, d.trace[p].output);
      } else {
        assert d.trace[p].output == c.trace[p].output;
      }
      OutputMadeLater(s, actions, k, d.trace[p].output);
    }
  }

  lemma AllMadeNext(s: seq<Cluster>, actions: seq<Action>, k: nat)
    requires Run(s, actions) && k < |actions| && AllMade(s, actions, k)
    ensures AllMade(s, actions, k + 1)
  {
    DisksNext(s, actions, k, s[k + 1]);
    OutputsNext(s, actions, k, s[k + 1]);
    hide DiskMade, OutputMade;
  }
}
