/**
 * A cluster of nodes and the network between them.  Every event handler is one step.  Whatever a handler lets out is
 * appended to a trace; the position of a request in the trace names it, so that an answer belongs to one request.
 * The network may lose, delay and reorder requests, deliver one several times, and lose or delay answers; the client
 * side takes at most one answer, or one failure, for each request.
 */
module Cluster {
  import opened Types
  import N = Node

  datatype Event = Event(node: Id, output: Output)

  datatype Cluster = Cluster(nodes: map<Id, N.Node>, trace: seq<Event>, closed: set<nat>, replies: map<nat, Reply>)

  datatype Action =
    | Deliver(rpc: nat, recentLeader: bool)
    | Receive(rpc: nat, junk: int)
    | Fail(rpc: nat)
    | ElectionTimeout(node: Id, junk: int)
    | QuorumTimeout(node: Id)
    | HeartBeatTimeout(node: Id)
    | Call(node: Id, op: Op)
    | Read(node: Id, round: nat, callback: nat)
    | Compact(node: Id, index: int, data: string)
    | Restart(node: Id)

  // ---------------------------------------------------------------- requests in the trace

  predicate IsRpc(c: Cluster, k: nat) {
    k < |c.trace| && c.trace[k].output.Send? && c.trace[k].node in c.nodes && c.trace[k].output.to in c.nodes
  }

  function From(c: Cluster, k: nat): Id
    requires IsRpc(c, k)
  {
    c.trace[k].node
  }

  function To(c: Cluster, k: nat): Id
    requires IsRpc(c, k)
  {
    c.trace[k].output.to
  }

  function RequestOf(c: Cluster, k: nat): Request
    requires IsRpc(c, k)
  {
    c.trace[k].output.request
  }

  // ---------------------------------------------------------------- handling

  predicate Fits(request: Request, reply: Reply) {
    match request
    case RequestVote(_) => reply.VoteAnswer?
    case PreVote(_, _) => reply.PreVoteAnswer?
    case AppendEntries(_) => reply.AppendAnswer?
    case InstallSnapshot(_) => reply.SnapshotAnswer?
  }

  /** What the log index assertions ask of a node that serves a request. */
  predicate SafeToServe(n: N.Node, request: Request) {
    N.WellFormed(n) && (request.AppendEntries? && !N.IsReadHeartBeat(request.append) ==> N.AppendOk(request.append))
  }

  /** The dispatch of the server's callbacks. */
  function Serve(n: N.Node, request: Request, recentLeader: bool): (r: (N.Node, Reply))
    requires SafeToServe(n, request)
    ensures Fits(request, r.1)
  {
    match request
    case RequestVote(a) => var (m, v) := N.TakeVote(n, a); (m, VoteAnswer(v))
    case PreVote(a, _) => (n, PreVoteAnswer(N.TakePreVote(n, a, recentLeader)))
    case AppendEntries(a) =>
      var (m, v) := if N.IsReadHeartBeat(a) then N.TakeReadHeartBeat(n, a) else N.TakeAppend(n, a);
      (m, AppendAnswer(v))
    case InstallSnapshot(a) => var (m, v) := N.TakeSnapshot(n, a); (m, SnapshotAnswer(v))
  }

  /** What the log index assertions ask of a node that hears the answer to its request, or that it failed. */
  predicate SafeToHear(n: N.Node, p: Id, request: Request, reply: Option<Reply>) {
    && N.WellFormed(n) && p in n.peers && (reply.Some? ==> Fits(request, reply.value))
    && (request.AppendEntries? ==> N.OwnRequest(n, request.append))
  }

  /** The handlers of answers; None is a transport failure. */
  function Hear(n: N.Node, p: Id, request: Request, reply: Option<Reply>, junk: int): N.Node
    requires SafeToHear(n, p, request, reply)
  {
    match request
    case RequestVote(a) =>
      N.OnVoteReply(n, a.term, if reply.None? then None else Some(reply.value.vote), junk)
    case PreVote(a, round) =>
      N.OnPreVoteReply(n, a.term, round, if reply.None? then None else Some(reply.value.pre), junk)
    case AppendEntries(a) =>
      N.OnAppendReply(n, p, a, if reply.None? then None else Some(reply.value.append))
    case InstallSnapshot(a) =>
      N.OnSnapshotReply(n, p, a.term, if reply.None? then None else Some(reply.value.snapshot))
  }

  // ---------------------------------------------------------------- steps

  function Events(i: Id, out: seq<Output>): seq<Event> {
    seq(|out|, j requires 0 <= j < |out| => Event(i, out[j]))
  }

  /** Node i becomes r, and what its handler let out goes to the trace. */
  function Emit(c: Cluster, i: Id, r: N.Node): Cluster {
    c.(nodes := c.nodes[i := r], trace := c.trace + Events(i, r.out))
  }

  /** A node about to handle an event: nothing let out yet. */
  function Ready(c: Cluster, i: Id): N.Node
    requires i in c.nodes
  {
    c.nodes[i].(out := [])
  }

  /** Can this happen next?  Of the nodes it asks no more than what the timers and callers do. */
  predicate Possible(c: Cluster, a: Action) {
    match a
    case Deliver(k, _) => IsRpc(c, k)
    case Receive(k, _) => IsRpc(c, k) && k !in c.closed && k in c.replies
    case Fail(k) => IsRpc(c, k) && k !in c.closed
    case ElectionTimeout(i, _) => i in c.nodes
    case QuorumTimeout(i) => i in c.nodes && c.nodes[i].status == Leader
    case HeartBeatTimeout(i) => i in c.nodes && c.nodes[i].status == Leader
    case Call(i, _) => i in c.nodes
    case Read(i, round, _) => i in c.nodes && c.nodes[i].readIndexRound < round
    case Compact(i, _, _) => i in c.nodes
    case Restart(i) => i in c.nodes
  }

  /** Does the handler stay clear of the two index assertions?  Reads that do not are dealt with in Step. */
  predicate Safe(c: Cluster, a: Action)
    requires Possible(c, a)
  {
    match a
    case Deliver(k, _) => SafeToServe(Ready(c, To(c, k)), RequestOf(c, k))
    case Receive(k, _) => SafeToHear(Ready(c, From(c, k)), To(c, k), RequestOf(c, k), Some(c.replies[k]))
    case Fail(k) => SafeToHear(Ready(c, From(c, k)), To(c, k), RequestOf(c, k), None)
    case Compact(i, _, _) => N.WellFormed(Ready(c, i)) && c.nodes[i].commitIndex <= N.LastIndex(c.nodes[i])
    case _ => N.WellFormed(Ready(c, a.node))
  }

  /** A failed assertion ends the process, so a read that trips it leaves a node to be restarted from its disk. */
  function ReadOrExit(n: N.Node, round: nat, callback: nat): N.Node
    requires N.WellFormed(n) && n.readIndexRound < round
  {
    if N.ReadSafe(n) then N.ReadIndex(n, round, callback) else N.Boot(n.id, n.peers, n.disk)
  }

  function Step(c: Cluster, a: Action): Cluster
    requires Possible(c, a) && Safe(c, a)
  {
    match a
    case Deliver(k, recentLeader) =>
      var (r, reply) := Serve(Ready(c, To(c, k)), RequestOf(c, k), recentLeader);
      Emit(c, To(c, k), r).(replies := c.replies[k := reply])
    case Receive(k, junk) =>
      Emit(c, From(c, k), Hear(Ready(c, From(c, k)), To(c, k), RequestOf(c, k), Some(c.replies[k]), junk))
        .(closed := c.closed + {k})
    case Fail(k) =>
      Emit(c, From(c, k), Hear(Ready(c, From(c, k)), To(c, k), RequestOf(c, k), None, 0)).(closed := c.closed + {k})
    case ElectionTimeout(i, junk) => Emit(c, i, N.BeginPreVote(Ready(c, i), junk))
    case QuorumTimeout(i) => Emit(c, i, N.StepDown(Ready(c, i)))
    case HeartBeatTimeout(i) => Emit(c, i, N.ScheduleAllReplication(Ready(c, i)))
    case Call(i, op) => Emit(c, i, N.Start(Ready(c, i), op))
    case Read(i, round, callback) => Emit(c, i, ReadOrExit(Ready(c, i), round, callback))
    case Compact(i, index, data) => Emit(c, i, N.DoSnapshot(Ready(c, i), index, data))
    case Restart(i) => Emit(c, i, N.Boot(c.nodes[i].id, c.nodes[i].peers, c.nodes[i].disk))
  }

  // ---------------------------------------------------------------- runs

  /** A fresh node with empty disk. */
  predicate Fresh(n: N.Node, i: Id, ids: set<Id>) {
    N.Distinct(n.peers) && i !in n.peers && {i} + (set p | p in n.peers) == ids && n == N.Boot(i, n.peers, N.BLANK_DISK)
  }

  /** Node ids are not the value that stands for no vote. */
  predicate Initial(c: Cluster) {
    && c.nodes.Keys != {} && NO_VOTE !in c.nodes
    && c.trace == [] && c.closed == {} && c.replies == map[]
    && forall i | i in c.nodes :: Fresh(c.nodes[i], i, c.nodes.Keys)
  }

  /** A handler that trips an index assertion may do anything, so safety has to show that none does. */
  predicate Next(c: Cluster, a: Action, d: Cluster) {
    Possible(c, a) && (Safe(c, a) ==> d == Step(c, a))
  }

  /** The states s of a run, with the actions that lead from each to the next. */
  predicate Run(s: seq<Cluster>, actions: seq<Action>) {
    && |s| == |actions| + 1 && Initial(s[0])
    && forall k | 0 <= k < |actions| :: Next(s[k], actions[k], s[k + 1])
  }
}
