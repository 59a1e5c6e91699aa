/**
 * One Raft node as a value, and every event handler of Raft.cc as a function on it.  RaftNode.dfy has the same
 * handlers as methods that update fields in place, proved equal to these.
 */
module Node {
  import opened Types

  /** The record written by persistData. */
  datatype PersistentState = PersistentState(currentTerm: int, votedFor: Id, logs: seq<Entry>, snapIndex: int,
                                             snapTerm: int)

  /** What survives a restart. */
  datatype Disk = Disk(state: PersistentState, snapshot: string)

  const BLANK_DISK := Disk(PersistentState(0, NO_VOTE, [], 0, 0), "")

  /** The open ReadIndex round (pendingReadIndex). */
  datatype ReadRound = ReadRound(number: nat, term: int, readIndex: int, acks: set<Id>, callbacks: seq<nat>)

  datatype Node = Node(
    id: Id,
    peers: seq<Id>,
    currentTerm: int,
    votedFor: Id,
    logs: seq<Entry>,
    snapIndex: int,
    snapTerm: int,
    commitIndex: int,
    lastApplied: int,
    nextIndex: map<Id, int>,
    matchIndex: map<Id, int>,
    currentTermCommitted: bool,
    activeRead: Option<ReadRound>,
    readPending: map<Id, nat>,
    inFlight: map<Id, bool>,
    pending: map<Id, bool>,
    status: Status,
    votesGranted: int,
    electionTerm: int,
    preVotesGranted: int,
    preVoteTerm: int,
    preVoteRound: int,
    readIndexRound: nat,
    disk: Disk,
    applyQueue: seq<ApplyMsg>,
    out: seq<Output>)

  // ---------------------------------------------------------------- well-formedness

  /** Entry i of the in-memory log is the one after the snapshot point and i more. */
  predicate Contiguous(logs: seq<Entry>, snapIndex: int) {
    forall i | 0 <= i < |logs| :: logs[i].index == snapIndex + 1 + i
  }

  predicate Distinct(peers: seq<Id>) {
    forall i, j | 0 <= i < j < |peers| :: peers[i] != peers[j]
  }

  predicate PeersOk(n: Node) {
    && Distinct(n.peers) && n.id !in n.peers
    && (forall p | p in n.peers :: p in n.nextIndex && p in n.matchIndex && p in n.inFlight && p in n.pending)
  }

  /** A leader's view of its peers points into its own log. */
  predicate ProgressOk(n: Node)
    requires PeersOk(n)
  {
    forall p | p in n.peers ::
      1 <= n.nextIndex[p] <= LastIndex(n) + 1 && 0 <= n.matchIndex[p] <= LastIndex(n)
  }

  /** The structure every handler needs to stay clear of the two index assertions, and keeps. */
  predicate WellFormed(n: Node) {
    && Contiguous(n.logs, n.snapIndex)
    && 0 <= n.snapIndex <= n.lastApplied && n.snapIndex <= n.commitIndex
    && PeersOk(n)
    && (n.status == Leader ==> ProgressOk(n))
  }

  /** Messages carry entries that follow their previous index. */
  predicate AppendOk(a: AppendArgs) {
    Contiguous(a.entries, a.prevIndex)
  }

  // ---------------------------------------------------------------- log helpers

  function LastIndex(n: Node): int {
    if n.logs == [] then n.snapIndex else n.logs[|n.logs| - 1].index
  }

  function LastTerm(n: Node): int {
    if n.logs == [] then n.snapTerm else n.logs[|n.logs| - 1].term
  }

  lemma LastIndexIs(n: Node)
    requires Contiguous(n.logs, n.snapIndex)
    ensures LastIndex(n) == n.snapIndex + |n.logs|
  {
  }

  function TermOf(n: Node, index: int): int
    requires Contiguous(n.logs, n.snapIndex) && n.snapIndex <= index <= LastIndex(n)
  {
    if index == n.snapIndex then n.snapTerm else n.logs[index - n.snapIndex - 1].term
  }

  predicate Matches(n: Node, index: int, term: int)
    requires Contiguous(n.logs, n.snapIndex)
  {
    n.snapIndex <= index <= LastIndex(n) && TermOf(n, index) == term
  }

  predicate WhetherVoteFor(n: Node, lastIndex: int, lastTerm: int) {
    lastTerm > LastTerm(n) || (lastTerm == LastTerm(n) && lastIndex >= LastIndex(n))
  }

  function Quorum(n: Node): int {
    (|n.peers| + 1) / 2 + 1
  }

  function Min(a: int, b: int): int {
    if a < b then a else b
  }

  function Max(a: int, b: int): int {
    if a < b then b else a
  }

  // ---------------------------------------------------------------- persistence

  function PersistentOf(n: Node): PersistentState {
    PersistentState(n.currentTerm, n.votedFor, n.logs, n.snapIndex, n.snapTerm)
  }

  function Persist(n: Node): Node {
    n.(disk := Disk(PersistentOf(n), n.disk.snapshot))
  }

  /** The constructor: volatile state at its initial values, the rest read back from disk. */
  function Boot(id: Id, peers: seq<Id>, disk: Disk): Node {
    var s := disk.state;
    var start := if s.snapIndex > 0 then s.snapIndex else 0;
    Node(id, peers, s.currentTerm, s.votedFor, s.logs, s.snapIndex, s.snapTerm, start, start,
         map p | p in peers :: 1, map p | p in peers :: 0, false, None, map[],
         map p | p in peers :: false, map p | p in peers :: false,
         Follower, 0, 0, 0, 0, 0, 0, disk, [], [])
  }

  // ---------------------------------------------------------------- read rounds

  function Answers(r: ReadRound, ok: bool): seq<Output> {
    seq(|r.callbacks|, j requires 0 <= j < |r.callbacks| => Answer(r.callbacks[j], ok, r.number, r.readIndex))
  }

  function ClearRound(readPending: map<Id, nat>, number: nat): map<Id, nat> {
    map p | p in readPending :: if readPending[p] == number then 0 else readPending[p]
  }

  /** What closing the open round tells its callers. */
  function Closing(n: Node, ok: bool): seq<Output> {
    match n.activeRead
    case None => []
    case Some(r) => Answers(r, ok)
  }

  function CloseRead(n: Node, ok: bool): (m: Node)
    ensures m == n.(activeRead := None, readPending := m.readPending, out := n.out + Closing(n, ok))
  {
    match n.activeRead
    case None => n
    case Some(r) => n.(activeRead := None, readPending := ClearRound(n.readPending, r.number),
                       out := n.out + Closing(n, ok))
  }

  // ---------------------------------------------------------------- role changes

  function BecomeFollower(n: Node, term: int): (r: Node)
    ensures WellFormed(n) ==> WellFormed(r)
    ensures r.status == Follower && r.activeRead == None && !r.currentTermCommitted
  {
    var n1 := if term > n.currentTerm then Persist(n.(currentTerm := term, votedFor := NO_VOTE)) else n;
    CloseRead(n1.(status := Follower, votesGranted := 0, preVotesGranted := 0, currentTermCommitted := false), false)
  }

  /** What every request handler does first. */
  function SeeTerm(n: Node, term: int): (r: Node)
    ensures WellFormed(n) ==> WellFormed(r)
  {
    if term > n.currentTerm then BecomeFollower(n, term) else n
  }

  function AllFalse(flags: map<Id, bool>): map<Id, bool> {
    map p | p in flags :: false
  }

  function StepDown(n: Node): (r: Node)
    ensures WellFormed(n) ==> WellFormed(r)
  {
    CloseRead(n.(status := Follower, votesGranted := 0, preVotesGranted := 0, pending := AllFalse(n.pending),
                 inFlight := AllFalse(n.inFlight), currentTermCommitted := false), false)
  }

  // ---------------------------------------------------------------- replication

  /** n and m differ at most in what steers and records sending. */
  predicate SameButSending(n: Node, m: Node) {
    m == n.(inFlight := m.inFlight, pending := m.pending, readPending := m.readPending, out := m.out)
  }

  function BuildAppend(n: Node, p: Id): (a: AppendArgs)
    requires WellFormed(n) && n.status == Leader && p in n.peers && n.snapIndex < n.nextIndex[p]
    ensures AppendOk(a) && a.prevIndex + |a.entries| == LastIndex(n)
  {
    var prev := n.nextIndex[p] - 1;
    AppendArgs(n.currentTerm, n.id, prev, TermOf(n, prev), n.logs[prev - n.snapIndex..], n.commitIndex, None)
  }

  function BuildReadHeartBeat(n: Node, p: Id, round: nat): AppendArgs
    requires WellFormed(n) && n.status == Leader && p in n.peers && n.snapIndex < n.nextIndex[p]
  {
    var prev := n.nextIndex[p] - 1;
    AppendArgs(n.currentTerm, n.id, prev, TermOf(n, prev), [], n.commitIndex, Some(round))
  }

  function BuildSnapshot(n: Node): SnapshotArgs {
    SnapshotArgs(n.currentTerm, n.id, n.snapIndex, n.snapTerm, n.disk.snapshot)
  }

  /** The snapshot if the peer needs entries that are compacted away, otherwise the entries. */
  function RequestFor(n: Node, p: Id): Request
    requires WellFormed(n) && n.status == Leader && p in n.peers
  {
    if n.nextIndex[p] <= n.snapIndex then InstallSnapshot(BuildSnapshot(n)) else AppendEntries(BuildAppend(n, p))
  }

  function ScheduleReplication(n: Node, p: Id): (r: Node)
    requires WellFormed(n) && p in n.peers
    ensures WellFormed(r) && SameButSending(n, r)
  {
    if n.status != Leader then n
    else if n.inFlight[p] then n.(pending := n.pending[p := true])
    else n.(inFlight := n.inFlight[p := true], pending := n.pending[p := false],
            out := n.out + [Send(p, RequestFor(n, p))])
  }

  /** scheduleReplication for the first k peers. */
  function ScheduleFirst(n: Node, k: nat): (r: Node)
    requires WellFormed(n) && k <= |n.peers|
    ensures WellFormed(r) && SameButSending(n, r)
  {
    if k == 0 then n else ScheduleReplication(ScheduleFirst(n, k - 1), n.peers[k - 1])
  }

  function ScheduleAllReplication(n: Node): (r: Node)
    requires WellFormed(n)
    ensures WellFormed(r) && SameButSending(n, r)
  {
    if n.status != Leader then n else ScheduleFirst(n, |n.peers|)
  }

  // ---------------------------------------------------------------- committing

  function CommandsOf(logs: seq<Entry>): seq<ApplyMsg> {
    seq(|logs|, j requires 0 <= j < |logs| => CommandMsg(logs[j].command, logs[j].index, logs[j].term))
  }

  function Applies(msgs: seq<ApplyMsg>): seq<Output> {
    seq(|msgs|, j requires 0 <= j < |msgs| => Apply(msgs[j]))
  }

  /** Push the commands from lastApplied + 1 to commitIndex. */
  function ApplyCommitted(n: Node): (r: Node)
    requires WellFormed(n) && n.commitIndex <= LastIndex(n)
    ensures WellFormed(r)
  {
    if n.commitIndex <= n.lastApplied then n
    else
      var msgs := CommandsOf(n.logs[n.lastApplied - n.snapIndex..n.commitIndex - n.snapIndex]);
      n.(lastApplied := n.commitIndex, applyQueue := n.applyQueue + msgs, out := n.out + Applies(msgs))
  }

  /** Move the commit index to m and apply up to it. */
  function CommitAt(n: Node, m: int): (r: Node)
    requires WellFormed(n) && n.snapIndex <= m <= LastIndex(n)
    ensures WellFormed(r)
    ensures r == n.(commitIndex := m, lastApplied := r.lastApplied, applyQueue := r.applyQueue, out := r.out)
  {
    ApplyCommitted(n.(commitIndex := m))
  }

  /** How many of the first k peers are known to store index. */
  function Matched(n: Node, index: int, k: nat): int
    requires PeersOk(n) && k <= |n.peers|
  {
    if k == 0 then 0
    else
      assert n.peers[k - 1] in n.peers;
      Matched(n, index, k - 1) + if n.matchIndex[n.peers[k - 1]] >= index then 1 else 0
  }

  predicate Committable(n: Node, index: int)
    requires WellFormed(n) && n.commitIndex < index <= LastIndex(n)
  {
    1 + Matched(n, index, |n.peers|) >= Quorum(n) && TermOf(n, index) == n.currentTerm
  }

  /** The scan of updateCommitIndex, from index down. */
  function CommitScan(n: Node, index: int): (r: int)
    requires WellFormed(n) && index <= LastIndex(n)
    ensures n.commitIndex <= r
    ensures r == n.commitIndex || (r <= index && Committable(n, r))
    ensures forall i | r < i <= index :: !Committable(n, i)
    decreases index - n.commitIndex
  {
    if index <= n.commitIndex then n.commitIndex
    else if Committable(n, index) then index
    else CommitScan(n, index - 1)
  }

  /** The leader has committed an entry of its own term. */
  function Announce(n: Node, index: int): (r: Node)
    requires WellFormed(n) && n.commitIndex < index <= LastIndex(n)
    ensures WellFormed(r) && LastIndex(r) == LastIndex(n)
  {
    n.(currentTermCommitted := true, out := n.out + [Committed(n.logs[index - n.snapIndex - 1])])
  }

  function UpdateCommit(n: Node): (r: Node)
    requires WellFormed(n)
    ensures WellFormed(r)
  {
    var index := CommitScan(n, LastIndex(n));
    if index == n.commitIndex then n
    else CommitAt(Announce(n, index), index)
  }

  // ---------------------------------------------------------------- elections

  function ToPeers(n: Node, request: Request): seq<Output> {
    seq(|n.peers|, j requires 0 <= j < |n.peers| => Send(n.peers[j], request))
  }

  function VoteRequestOf(n: Node): VoteArgs {
    VoteArgs(n.currentTerm, n.id, LastIndex(n), LastTerm(n))
  }

  /** The map after a loop that sets the entry of every peer to v. */
  function SetAll<V>(m: map<Id, V>, peers: seq<Id>, v: V): (r: map<Id, V>)
    ensures forall p | p in peers :: p in r && r[p] == v
    ensures forall p | p in m :: p in r
  {
    if peers == [] then m else SetAll(m, peers[..|peers| - 1], v)[peers[|peers| - 1] := v]
  }

  /** A leader starts with nothing known about its peers. */
  function TakeOffice(n: Node): (r: Node)
    requires WellFormed(n)
    ensures WellFormed(r) && r.status == Leader && LastIndex(r) == LastIndex(n)
    ensures forall p | p in r.peers :: r.matchIndex[p] == 0
  {
    n.(status := Leader, votesGranted := 0, preVotesGranted := 0,
       nextIndex := SetAll(n.nextIndex, n.peers, LastIndex(n) + 1), matchIndex := SetAll(n.matchIndex, n.peers, 0),
       inFlight := SetAll(n.inFlight, n.peers, false), pending := SetAll(n.pending, n.peers, false),
       out := n.out + [Elected(n.currentTerm)])
  }

  /** A new leader appends an entry of its own term at once. */
  function BecomeLeader(n: Node, junk: int): (r: Node)
    requires WellFormed(n)
    ensures WellFormed(r) && r.status == Leader
  {
    ScheduleAllReplication(AppendEntry(TakeOffice(n), Noop(junk)))
  }

  function AppendEntry(n: Node, op: Op): (r: Node)
    requires WellFormed(n)
    ensures WellFormed(r)
  {
    Persist(n.(logs := n.logs + [Entry(n.currentTerm, LastIndex(n) + 1, op)]))
  }

  /** A new term and a vote for itself, on disk before anyone hears of it. */
  function Campaign(n: Node): (r: Node)
    requires WellFormed(n)
    ensures WellFormed(r) && r.out == n.out && LastIndex(r) == LastIndex(n)
  {
    Persist(n.(status := Candidate, currentTerm := n.currentTerm + 1, votedFor := n.id, votesGranted := 1,
               electionTerm := n.currentTerm + 1))
  }

  function Canvass(n: Node): (r: Node)
    requires WellFormed(n)
    ensures WellFormed(r) && SameButSending(n, r)
  {
    n.(out := n.out + ToPeers(n, RequestVote(VoteRequestOf(n))))
  }

  function BeginElection(n: Node, junk: int): (r: Node)
    requires WellFormed(n)
    ensures WellFormed(r)
  {
    if n.status == Leader then n
    else
      var n1 := Canvass(Campaign(n));
      if n1.votesGranted >= Quorum(n1) then BecomeLeader(n1, junk) else n1
  }

  /** Ask for votes in the next term without entering it. */
  function Probe(n: Node): (r: Node)
    requires WellFormed(n)
    ensures WellFormed(r)
  {
    n.(status := PreCandidate, preVoteTerm := n.currentTerm + 1, preVotesGranted := 1,
       preVoteRound := n.preVoteRound + 1,
       out := n.out + ToPeers(n, PreVote(VoteRequestOf(n).(term := n.currentTerm + 1), n.preVoteRound + 1)))
  }

  function BeginPreVote(n: Node, junk: int): (r: Node)
    requires WellFormed(n)
    ensures WellFormed(r)
  {
    if n.status == Leader then n
    else
      var n1 := Probe(n);
      if n1.preVotesGranted >= Quorum(n1) then BeginElection(n1, junk) else n1
  }

  // ---------------------------------------------------------------- requests from other nodes

  function TakeVote(n: Node, a: VoteArgs): (r: (Node, VoteReply))
    requires WellFormed(n)
    ensures WellFormed(r.0)
  {
    var n1 := SeeTerm(n, a.term);
    if a.term < n1.currentTerm then (n1, VoteReply(n1.currentTerm, false, EXPIRED))
    else
      var mayVote := n1.votedFor == NO_VOTE || n1.votedFor == a.candidate;
      var granted := mayVote && WhetherVoteFor(n1, a.lastIndex, a.lastTerm);
      var n2 := if granted && n1.votedFor != a.candidate then Persist(n1.(votedFor := a.candidate)) else n1;
      (n2, VoteReply(n2.currentTerm, granted, if granted then NORMAL else if mayVote then LOG_OUTDATED else VOTED))
  }

  /** A pre-vote is an opinion: the node does not change. */
  function TakePreVote(n: Node, a: VoteArgs, recentLeader: bool): VoteReply {
    if a.term < n.currentTerm then VoteReply(n.currentTerm, false, EXPIRED)
    else
      var upToDate := WhetherVoteFor(n, a.lastIndex, a.lastTerm);
      var granted := !recentLeader && upToDate;
      VoteReply(n.currentTerm, granted, if granted then NORMAL else if upToDate then VOTED else NOT_UP_TO_DATE)
  }

  /** One incoming entry: skip it, put it in place of a conflicting tail, or append it. */
  function MergeOne(logs: seq<Entry>, snapIndex: int, e: Entry): (r: (seq<Entry>, bool))
    requires Contiguous(logs, snapIndex) && snapIndex < e.index <= snapIndex + |logs| + 1
    ensures Contiguous(r.0, snapIndex) && |r.0| >= e.index - snapIndex
  {
    var pos := e.index - snapIndex - 1;
    if pos == |logs| then (logs + [e], true)
    else if logs[pos].term != e.term then (logs[..pos] + [e], true)
    else (logs, false)
  }

  /** The loop of handleAppendEntries, and whether it changed anything. */
  function Merge(logs: seq<Entry>, snapIndex: int, prev: int, entries: seq<Entry>): (r: (seq<Entry>, bool))
    requires Contiguous(logs, snapIndex) && snapIndex <= prev <= snapIndex + |logs| && Contiguous(entries, prev)
    ensures Contiguous(r.0, snapIndex) && |r.0| >= prev + |entries| - snapIndex
    ensures !r.1 ==> r.0 == logs
  {
    if entries == [] then (logs, false)
    else
      var (l, changed) := Merge(logs, snapIndex, prev, entries[..|entries| - 1]);
      var (l1, changed1) := MergeOne(l, snapIndex, entries[|entries| - 1]);
      (l1, changed || changed1)
  }

  /** The first index of the run of equal terms that ends at index c. */
  function WalkBack(n: Node, c: int): (r: int)
    requires Contiguous(n.logs, n.snapIndex) && n.snapIndex < c <= LastIndex(n)
    ensures n.snapIndex < r <= c
    ensures forall i | r <= i <= c :: TermOf(n, i) == TermOf(n, c)
    ensures r == n.snapIndex + 1 || TermOf(n, r - 1) != TermOf(n, c)
    decreases c - n.snapIndex
  {
    if c > n.snapIndex + 1 && TermOf(n, c - 1) == TermOf(n, c) then WalkBack(n, c - 1) else c
  }

  /** The index a follower suggests after a mismatch. */
  function Suggest(n: Node, prev: int): (r: int)
    requires Contiguous(n.logs, n.snapIndex)
    ensures n.snapIndex < r
  {
    var c := Min(prev, LastIndex(n));
    if c <= n.snapIndex then n.snapIndex + 1 else WalkBack(n, c)
  }

  function CommitTo(n: Node, leaderCommit: int): (r: Node)
    requires WellFormed(n)
    ensures WellFormed(r)
  {
    if leaderCommit > n.commitIndex then CommitAt(n, Min(LastIndex(n), leaderCommit)) else n
  }

  function StoreEntries(n: Node, a: AppendArgs): (r: Node)
    requires WellFormed(n) && n.status != Leader && AppendOk(a) && n.snapIndex <= a.prevIndex <= LastIndex(n)
    ensures WellFormed(r) && r == n.(logs := r.logs, disk := r.disk)
    ensures r.status == n.status && r.currentTerm == n.currentTerm && r.commitIndex == n.commitIndex
  {
    var (logs, changed) := Merge(n.logs, n.snapIndex, a.prevIndex, a.entries);
    if changed then Persist(n.(logs := logs)) else n
  }

  /** A follower of the sender's term: check the previous entry, store, commit. */
  function FollowAppend(n: Node, a: AppendArgs): (r: (Node, AppendReply))
    requires WellFormed(n) && AppendOk(a) && n.status == Follower
    ensures WellFormed(r.0)
  {
    if !Matches(n, a.prevIndex, a.prevTerm)
    then (n, AppendReply(n.currentTerm, false, Suggest(n, a.prevIndex), LOG_OUTDATED, None))
    else (CommitTo(StoreEntries(n, a), a.leaderCommit), AppendReply(n.currentTerm, true, NO_SUGGESTION, NORMAL, None))
  }

  function TakeAppend(n: Node, a: AppendArgs): (r: (Node, AppendReply))
    requires WellFormed(n) && AppendOk(a)
    ensures WellFormed(r.0)
  {
    var n1 := SeeTerm(n, a.term);
    if a.term < n1.currentTerm then (n1, AppendReply(n1.currentTerm, false, NO_SUGGESTION, EXPIRED, None))
    else FollowAppend(n1.(status := Follower), a)
  }

  function TakeReadHeartBeat(n: Node, a: AppendArgs): (r: (Node, AppendReply))
    requires WellFormed(n)
    ensures WellFormed(r.0)
  {
    var n1 := SeeTerm(n, a.term);
    if a.term < n1.currentTerm then (n1, AppendReply(n1.currentTerm, false, 100, EXPIRED, a.readRound))
    else (n1.(status := Follower), AppendReply(n1.currentTerm, true, NO_SUGGESTION, NORMAL, a.readRound))
  }

  /** Does the log reach the snapshot's last entry and agree with it? */
  predicate KeepsSuffix(n: Node, a: SnapshotArgs)
    requires Contiguous(n.logs, n.snapIndex)
  {
    n.snapIndex <= a.lastIndex <= LastIndex(n) && TermOf(n, a.lastIndex) == a.lastTerm
  }

  function Install(n: Node, a: SnapshotArgs): (r: Node)
    requires WellFormed(n) && n.status != Leader && a.lastIndex > n.snapIndex
    ensures WellFormed(r) && r.status == n.status
    ensures r.logs == if KeepsSuffix(n, a) then n.logs[a.lastIndex - n.snapIndex..] else []
    ensures r.commitIndex == Max(n.commitIndex, a.lastIndex) && r.lastApplied == Max(n.lastApplied, a.lastIndex)
  {
    var logs := if KeepsSuffix(n, a) then n.logs[a.lastIndex - n.snapIndex..] else [];
    var n1 := n.(logs := logs, snapIndex := a.lastIndex, snapTerm := a.lastTerm,
                 commitIndex := Max(n.commitIndex, a.lastIndex), lastApplied := Max(n.lastApplied, a.lastIndex));
    var msg := SnapshotMsg(a.data, a.lastIndex, a.lastTerm);
    n1.(disk := Disk(PersistentOf(n1), a.data), applyQueue := n.applyQueue + [msg], out := n.out + [Apply(msg)])
  }

  function TakeSnapshot(n: Node, a: SnapshotArgs): (r: (Node, SnapshotReply))
    requires WellFormed(n)
    ensures WellFormed(r.0)
  {
    var n1 := SeeTerm(n, a.term);
    if a.term < n1.currentTerm then (n1, SnapshotReply(n1.currentTerm))
    else
      var n2 := n1.(status := Follower);
      var n3 := if a.lastIndex > n2.snapIndex then Install(n2, a) else n2;
      (n3, SnapshotReply(n3.currentTerm))
  }

  /** OnAppendEntries sends a request with a read round and no entries to the heartbeat handler. */
  predicate IsReadHeartBeat(a: AppendArgs) {
    a.readRound.Some? && a.entries == []
  }

  // ---------------------------------------------------------------- answers from other nodes

  function CountPreVote(n: Node, junk: int): (r: Node)
    requires WellFormed(n)
    ensures WellFormed(r)
  {
    var n1 := n.(preVotesGranted := n.preVotesGranted + 1);
    if n1.preVotesGranted >= Quorum(n1) then BeginElection(n1, junk) else n1
  }

  function OnPreVoteReply(n: Node, term: int, round: int, reply: Option<VoteReply>, junk: int): (r: Node)
    requires WellFormed(n)
    ensures WellFormed(r)
  {
    match reply
    case None => n
    case Some(v) =>
      if v.term > n.currentTerm then BecomeFollower(n, v.term)
      else if n.status != PreCandidate || term != n.preVoteTerm || round != n.preVoteRound || !v.granted then n
      else CountPreVote(n, junk)
  }

  function CountVote(n: Node, junk: int): (r: Node)
    requires WellFormed(n)
    ensures WellFormed(r)
  {
    var n1 := n.(votesGranted := n.votesGranted + 1);
    if n1.votesGranted >= Quorum(n1) then BecomeLeader(n1, junk) else n1
  }

  function OnVoteReply(n: Node, term: int, reply: Option<VoteReply>, junk: int): (r: Node)
    requires WellFormed(n)
    ensures WellFormed(r)
  {
    match reply
    case None => n
    case Some(v) =>
      if v.term > n.currentTerm then BecomeFollower(n, v.term)
      else if n.status != Candidate || term != n.currentTerm || n.electionTerm != n.currentTerm || !v.granted then n
      else CountVote(n, junk)
  }

  /** May a read heartbeat be built for p?  buildReadHeartBeat asserts that the snapshot point is below nextIndex. */
  predicate HeartBeatSafe(n: Node, p: Id)
    requires PeersOk(n) && p in n.peers
  {
    n.inFlight[p] || n.snapIndex < n.nextIndex[p]
  }

  function ScheduleHeartBeat(n: Node, p: Id, round: nat): (r: Node)
    requires WellFormed(n) && p in n.peers && HeartBeatSafe(n, p)
    ensures WellFormed(r) && SameButSending(n, r)
  {
    if n.status != Leader || n.activeRead.None? || n.activeRead.value.number != round then n
    else if n.inFlight[p] then n.(readPending := n.readPending[p := round])
    else n.(inFlight := n.inFlight[p := true],
            out := n.out + [Send(p, AppendEntries(BuildReadHeartBeat(n, p, round)))])
  }

  function TryReadHeartBeat(n: Node, p: Id): (r: Node)
    requires WellFormed(n) && p in n.peers && HeartBeatSafe(n, p)
    ensures WellFormed(r) && SameButSending(n, r)
  {
    if n.status != Leader || p !in n.readPending || n.readPending[p] == 0 then n
    else if n.activeRead.None? || n.activeRead.value.number != n.readPending[p]
    then n.(readPending := n.readPending[p := 0])
    else if n.inFlight[p] then n
    else ScheduleHeartBeat(n.(readPending := n.readPending[p := 0]), p, n.readPending[p])
  }

  /** The end of handleAppendReply: replication goes before pending read heartbeats. */
  function Continue(n: Node, p: Id, retry: bool): (r: Node)
    requires WellFormed(n) && p in n.peers && n.status == Leader
    ensures WellFormed(r) && SameButSending(n, r)
  {
    if retry || n.pending[p] || n.nextIndex[p] <= LastIndex(n) then ScheduleReplication(n, p)
    else TryReadHeartBeat(n, p)
  }

  /** The next index to try after a rejection. */
  function Backtrack(n: Node, p: Id, suggestion: int): (r: int)
    requires PeersOk(n) && p in n.peers
    ensures 1 <= r && (n.status == Leader && ProgressOk(n) && LastIndex(n) >= 0 ==> r <= LastIndex(n) + 1)
  {
    var s := if suggestion == NO_SUGGESTION then n.nextIndex[p] - 1 else suggestion;
    var s1 := Max(1, Min(s, LastIndex(n) + 1));
    if s1 >= n.nextIndex[p] then Max(1, n.nextIndex[p] - 1) else s1
  }

  /** n and m differ at most in what a leader knows of its peers. */
  predicate SameButProgress(n: Node, m: Node) {
    m == n.(nextIndex := m.nextIndex, matchIndex := m.matchIndex)
  }

  /** The peer rejected what it was sent. */
  function TryNext(n: Node, p: Id, suggestion: int): (r: Node)
    requires WellFormed(n) && p in n.peers && n.status == Leader
    ensures WellFormed(r) && SameButProgress(n, r) && r.matchIndex == n.matchIndex
  {
    n.(nextIndex := n.nextIndex[p := Backtrack(n, p, suggestion)])
  }

  function Credit(n: Node, p: Id, index: int): (r: Node)
    requires WellFormed(n) && p in n.peers && n.status == Leader && index <= LastIndex(n)
    ensures WellFormed(r) && SameButProgress(n, r)
  {
    var m := Max(n.matchIndex[p], index);
    n.(matchIndex := n.matchIndex[p := m], nextIndex := n.nextIndex[p := m + 1])
  }

  function OnReadAck(n: Node, p: Id, number: nat): (r: Node)
    requires WellFormed(n) && p in n.peers && n.status == Leader
    ensures WellFormed(r)
  {
    match n.activeRead
    case None => n
    case Some(a) =>
      if a.term != n.currentTerm || a.number != number then n
      else
        var a1 := a.(acks := a.acks + {p});
        var n1 := n.(activeRead := Some(a1));
        Continue(if |a1.acks| >= Quorum(n) then CloseRead(n1, true) else n1, p, false)
  }

  /** request is the one the reply answers, built by this leader in this term if the terms agree. */
  predicate OwnRequest(n: Node, request: AppendArgs) {
    n.status == Leader && request.term == n.currentTerm ==> request.prevIndex + |request.entries| <= LastIndex(n)
  }

  /** The peer answered in the leader's own term. */
  function OnAppendAnswer(n: Node, p: Id, request: AppendArgs, a: AppendReply): (r: Node)
    requires WellFormed(n) && p in n.peers && n.status == Leader
    requires request.prevIndex + |request.entries| <= LastIndex(n)
    ensures WellFormed(r)
  {
    if a.success && a.readRound.Some? && a.readRound.value > 0 then OnReadAck(n, p, a.readRound.value)
    else if a.success then OnMatch(n, p, request.prevIndex + |request.entries|)
    else Retry(n, p, a.updateNextIndex)
  }

  /** A rejection: step back and send again. */
  function Retry(n: Node, p: Id, suggestion: int): (r: Node)
    requires WellFormed(n) && p in n.peers && n.status == Leader
    ensures WellFormed(r)
  {
    Continue(TryNext(n, p, suggestion), p, true)
  }

  function OnMatch(n: Node, p: Id, index: int): (r: Node)
    requires WellFormed(n) && p in n.peers && n.status == Leader && index <= LastIndex(n)
    ensures WellFormed(r)
  {
    Continue(UpdateCommit(Credit(n, p, index)), p, false)
  }

  function Idle(n: Node, p: Id): (r: Node)
    requires WellFormed(n) && p in n.peers
    ensures WellFormed(r) && SameButSending(n, r)
  {
    n.(inFlight := n.inFlight[p := false])
  }

  function AppendAnswered(n: Node, p: Id, request: AppendArgs, a: AppendReply): (r: Node)
    requires WellFormed(n) && p in n.peers && n.status == Leader
    requires request.prevIndex + |request.entries| <= LastIndex(n)
    ensures WellFormed(r)
  {
    if a.term > n.currentTerm then BecomeFollower(n, a.term)
    else if a.term < n.currentTerm then n
    else OnAppendAnswer(n, p, request, a)
  }

  function OnAppendReply(n: Node, p: Id, request: AppendArgs, reply: Option<AppendReply>): (r: Node)
    requires WellFormed(n) && p in n.peers && OwnRequest(n, request)
    ensures WellFormed(r)
  {
    if n.status != Leader || request.term != n.currentTerm then n
    else if reply.None? then Idle(n, p)
    else AppendAnswered(Idle(n, p), p, request, reply.value)
  }

  function OnSnapshotAnswer(n: Node, p: Id): (r: Node)
    requires WellFormed(n) && p in n.peers && n.status == Leader
    ensures WellFormed(r)
  {
    Resume(Credit(n, p, n.snapIndex), p)
  }

  /** The end of handleSnapshotReply. */
  function Resume(n: Node, p: Id): (r: Node)
    requires WellFormed(n) && p in n.peers && n.status == Leader
    ensures WellFormed(r)
  {
    if n.pending[p] || n.nextIndex[p] <= LastIndex(n) then ScheduleReplication(n, p) else n
  }

  function SnapshotAnswered(n: Node, p: Id, a: SnapshotReply): (r: Node)
    requires WellFormed(n) && p in n.peers && n.status == Leader
    ensures WellFormed(r)
  {
    if a.term > n.currentTerm then BecomeFollower(n, a.term)
    else if a.term < n.currentTerm then n
    else OnSnapshotAnswer(n, p)
  }

  function OnSnapshotReply(n: Node, p: Id, term: int, reply: Option<SnapshotReply>): (r: Node)
    requires WellFormed(n) && p in n.peers
    ensures WellFormed(r)
  {
    if n.status != Leader || term != n.currentTerm then n
    else if reply.None? then Idle(n, p)
    else SnapshotAnswered(Idle(n, p), p, reply.value)
  }

  // ---------------------------------------------------------------- calls from the state machine

  function Start(n: Node, op: Op): (r: Node)
    requires WellFormed(n)
    ensures WellFormed(r)
  {
    if n.status != Leader then n
    else
      var n1 := ScheduleAllReplication(UpdateCommit(AppendEntry(n, op)));
      n1.(out := n1.out + [Started(Entry(n.currentTerm, LastIndex(n) + 1, op))])
  }

  function HeartBeatFirst(n: Node, round: nat, k: nat): (r: Node)
    requires WellFormed(n) && k <= |n.peers|
    requires forall p | p in n.peers :: HeartBeatSafe(n, p)
    ensures WellFormed(r) && SameButSending(n, r)
    ensures forall p | p in n.peers :: HeartBeatSafe(r, p)
  {
    if k == 0 then n else ScheduleHeartBeat(HeartBeatFirst(n, round, k - 1), n.peers[k - 1], round)
  }

  /** Would readIndex open a round rather than refuse or join one? */
  predicate OpensRound(n: Node) {
    n.status == Leader && n.currentTermCommitted && n.activeRead.None?
  }

  /** The condition under which readIndex stays clear of the index assertion in buildReadHeartBeat. */
  predicate ReadSafe(n: Node)
    requires PeersOk(n)
  {
    OpensRound(n) ==> forall p | p in n.peers :: HeartBeatSafe(n, p)
  }

  function OpenRound(n: Node, round: nat, callback: nat): (r: Node)
    requires WellFormed(n)
    ensures WellFormed(r) && r.peers == n.peers && r.inFlight == n.inFlight && r.nextIndex == n.nextIndex
    ensures r.snapIndex == n.snapIndex
  {
    n.(activeRead := Some(ReadRound(round, n.currentTerm, n.commitIndex, {n.id}, [callback])), readIndexRound := round,
       out := n.out + [Opened(n.currentTerm, round, n.commitIndex)])
  }

  function JoinRound(n: Node, callback: nat): (r: Node)
    requires WellFormed(n) && n.activeRead.Some?
    ensures WellFormed(r)
  {
    n.(activeRead := Some(n.activeRead.value.(callbacks := n.activeRead.value.callbacks + [callback])))
  }

  /** round is the next value of a counter that all nodes of a process share, so it may skip numbers. */
  function ReadIndex(n: Node, round: nat, callback: nat): (r: Node)
    requires WellFormed(n) && n.readIndexRound < round && ReadSafe(n)
    ensures WellFormed(r)
  {
    if n.status != Leader then n.(out := n.out + [Answer(callback, false, -1, -1)])
    else if !n.currentTermCommitted then n.(out := n.out + [Answer(callback, false, -2, -2)])
    else match n.activeRead
      case Some(_) => JoinRound(n, callback)
      case None => HeartBeatFirst(OpenRound(n, round, callback), round, |n.peers|)
  }

  /** Drop the log up to snapshotIndex, which the state machine has in its snapshot. */
  function DoSnapshot(n: Node, snapshotIndex: int, data: string): (r: Node)
    requires WellFormed(n) && n.commitIndex <= LastIndex(n)
    ensures WellFormed(r)
    ensures r == n.(logs := r.logs, snapIndex := r.snapIndex, snapTerm := r.snapTerm, lastApplied := r.lastApplied,
                    disk := r.disk)
  {
    if snapshotIndex <= n.snapIndex || snapshotIndex > n.commitIndex then n
    else
      var n1 := n.(logs := n.logs[snapshotIndex - n.snapIndex..], snapIndex := snapshotIndex,
                   snapTerm := TermOf(n, snapshotIndex), lastApplied := Max(n.lastApplied, snapshotIndex));
      n1.(disk := Disk(PersistentOf(n1), data))
  }
}
