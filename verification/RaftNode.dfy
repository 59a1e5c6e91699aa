/**
 * The node as the source has it: one object whose handlers update its fields in place.  Each handler is proved to do
 * exactly what its counterpart in Node.dfy says, so what is proved about runs of those holds of these.
 */
module RaftNode {
  import opened Types
  import N = Node

  class Raft {
    const id: Id
    const peers: seq<Id>
    var currentTerm: int
    var votedFor: Id
    var logs: seq<Entry>
    var snapIndex: int
    var snapTerm: int
    var commitIndex: int
    var lastApplied: int
    var nextIndex: map<Id, int>
    var matchIndex: map<Id, int>
    var currentTermCommitted: bool
    var activeRead: Option<N.ReadRound>
    var readPending: map<Id, nat>
    var inFlight: map<Id, bool>
    var pending: map<Id, bool>
    var status: Status
    var votesGranted: int
    var electionTerm: int
    var preVotesGranted: int
    var preVoteTerm: int
    var preVoteRound: int
    var readIndexRound: nat
    var disk: N.Disk
    var applyQueue: seq<ApplyMsg>
    var out: seq<Output>

    function State(): N.Node
      reads this
    {
      N.Node(id, peers, currentTerm, votedFor, logs, snapIndex, snapTerm, commitIndex, lastApplied, nextIndex,
             matchIndex, currentTermCommitted, activeRead, readPending, inFlight, pending, status, votesGranted,
             electionTerm, preVotesGranted, preVoteTerm, preVoteRound, readIndexRound, disk, applyQueue, out)
    }

    // -------------------------------------------------------------- starting and saving

    /** Initial values, then what readPersist finds on disk. */
    constructor (id: Id, peers: seq<Id>, disk: N.Disk)
      ensures State() == N.Boot(id, peers, disk)
    {
      this.id, this.peers, this.disk := id, peers, disk;
      nextIndex := map p | p in peers :: 1;
      matchIndex := map p | p in peers :: 0;
      inFlight := map p | p in peers :: false;
      pending := map p | p in peers :: false;
      currentTerm, votedFor, logs := disk.state.currentTerm, disk.state.votedFor, disk.state.logs;
      snapIndex, snapTerm := disk.state.snapIndex, disk.state.snapTerm;
      commitIndex, lastApplied := 0, 0;
      if disk.state.snapIndex > 0 {
        commitIndex, lastApplied := disk.state.snapIndex, disk.state.snapIndex;
      }
      currentTermCommitted, activeRead, readPending, status := false, None, map[], Follower;
      votesGranted, electionTerm, preVotesGranted, preVoteTerm, preVoteRound, readIndexRound := 0, 0, 0, 0, 0, 0;
      applyQueue, out := [], [];
    }

    method Persist()
      modifies this`disk
      ensures disk == N.Disk(N.PersistentState(currentTerm, votedFor, logs, snapIndex, snapTerm), old(disk).snapshot)
    {
      disk := disk.(state := N.PersistentState(currentTerm, votedFor, logs, snapIndex, snapTerm));
    }

    function GetLastLogIndex(): int
      reads this
    {
      N.LastIndex(State())
    }

    function QuorumSize(): int
      reads this
    {
      N.Quorum(State())
    }

    // -------------------------------------------------------------- open reads

    /** The loop over the callbacks of a round that closes. */
    method Notify(r: N.ReadRound, ok: bool)
      modifies this`out
      ensures out == old(out) + N.Answers(r, ok)
    {
      var k := 0;
      while k < |r.callbacks|
        invariant k <= |r.callbacks|
        invariant out == old(out) + N.Answers(r, ok)[..k]
      {
        out := out + [Answer(r.callbacks[k], ok, r.number, r.readIndex)];
        k := k + 1;
      }
    }

    /** The loop that forgets heartbeats still owed to a closed round. */
    method ForgetPending(number: nat)
      modifies this`readPending
      ensures readPending == N.ClearRound(old(readPending), number)
    {
      var todo := readPending.Keys;
      while exists p :: p in todo
        invariant todo <= old(readPending).Keys && readPending.Keys == old(readPending).Keys
        invariant forall p | p in readPending ::
                    readPending[p] ==
                    (if p in todo then old(readPending)[p] else N.ClearRound(old(readPending), number)[p])
        decreases |todo|
      {
        var p :| p in todo;
        if readPending[p] == number {
          readPending := readPending[p := 0];
        }
        todo := todo - {p};
      }
      forall p | p in readPending ensures readPending[p] == N.ClearRound(old(readPending), number)[p] {}
    }

    /** failAllPendingReadIndexInEventLoop and completeActiveReadInEventLoop. */
    method CloseActiveRead(ok: bool)
      modifies this`activeRead, this`readPending, this`out
      ensures activeRead == None
      ensures old(activeRead).None? ==> out == old(out) && readPending == old(readPending)
      ensures old(activeRead).Some? ==>
        && out == old(out) + N.Answers(old(activeRead).value, ok)
        && readPending == N.ClearRound(old(readPending), old(activeRead).value.number)
    {
      if activeRead.None? {
        return;
      }
      var pendingRead := activeRead.value;
      activeRead := None;
      Notify(pendingRead, ok);
      ForgetPending(pendingRead.number);
    }

    // -------------------------------------------------------------- role changes

    /** The lines that all three changes of role have in common. */
    method EnterRole(role: Status)
      modifies this`status, this`votesGranted, this`preVotesGranted
      ensures status == role && votesGranted == 0 && preVotesGranted == 0
    {
      status, votesGranted, preVotesGranted := role, 0, 0;
    }

    method EnterTerm(term: int, vote: Id)
      modifies this`currentTerm, this`votedFor
      ensures currentTerm == term && votedFor == vote
    {
      currentTerm, votedFor := term, vote;
    }

    method ToFollower(term: int)
      modifies this`currentTerm, this`votedFor, this`disk, this`status, this`votesGranted, this`preVotesGranted,
               this`currentTermCommitted, this`activeRead, this`readPending, this`out
      ensures var r := N.BecomeFollower(old(State()), term);
              && currentTerm == r.currentTerm && votedFor == r.votedFor && disk == r.disk && status == r.status
              && votesGranted == r.votesGranted && preVotesGranted == r.preVotesGranted
              && currentTermCommitted == r.currentTermCommitted && activeRead == r.activeRead
              && readPending == r.readPending && out == r.out
    {
      hide N.WellFormed;
      if term > currentTerm {
        EnterTerm(term, NO_VOTE);
        Persist();
      }
      EnterRole(Follower);
      currentTermCommitted := false;
      CloseActiveRead(false);
    }

    method BecomeFollower(term: int)
      modifies this`currentTerm, this`votedFor, this`disk, this`status, this`votesGranted, this`preVotesGranted,
               this`currentTermCommitted, this`activeRead, this`readPending, this`out
      ensures State() == N.BecomeFollower(old(State()), term)
    {
      hide N.WellFormed;
      ToFollower(term);
    }

    /** Set every flag of a map to false, entry by entry. */
    static method AllFalse(flags: map<Id, bool>) returns (r: map<Id, bool>)
      ensures r == N.AllFalse(flags)
    {
      r := flags;
      var todo := flags.Keys;
      while exists p :: p in todo
        invariant todo <= flags.Keys && r.Keys == flags.Keys
        invariant forall p | p in flags && p !in todo :: !r[p]
        decreases |todo|
      {
        var p :| p in todo;
        r := r[p := false];
        todo := todo - {p};
      }
      forall p | p in r ensures !r[p] {}
    }

    method ToIdle()
      modifies this`status, this`votesGranted, this`preVotesGranted, this`pending, this`inFlight,
               this`currentTermCommitted, this`activeRead, this`readPending, this`out
      ensures var r := N.StepDown(old(State()));
              && status == r.status && votesGranted == r.votesGranted && preVotesGranted == r.preVotesGranted
              && pending == r.pending && inFlight == r.inFlight && currentTermCommitted == r.currentTermCommitted
              && activeRead == r.activeRead && readPending == r.readPending && out == r.out
    {
      hide N.WellFormed, N.AllFalse;
      EnterRole(Follower);
      pending := AllFalse(pending);
      inFlight := AllFalse(inFlight);
      currentTermCommitted := false;
      CloseActiveRead(false);
    }

    method StepDown()
      modifies this`status, this`votesGranted, this`preVotesGranted, this`pending, this`inFlight,
               this`currentTermCommitted, this`activeRead, this`readPending, this`out
      ensures State() == N.StepDown(old(State()))
    {
      hide N.WellFormed;
      ToIdle();
    }

    // -------------------------------------------------------------- replication

    method BuildAppendEntries(p: Id) returns (request: AppendArgs)
      requires N.WellFormed(State()) && status == Leader && p in peers && snapIndex < nextIndex[p]
      ensures request == N.BuildAppend(State(), p)
    {
      var previousIndex := nextIndex[p] - 1;
      var entries := [];
      var first := previousIndex - snapIndex;
      var i := if first > 0 then first else 0;
      while i < |logs|
        invariant first <= i <= |logs| && entries == logs[first..i]
      {
        entries := entries + [logs[i]];
        i := i + 1;
      }
      request := AppendArgs(currentTerm, id, previousIndex, N.TermOf(State(), previousIndex), entries, commitIndex,
                            None);
    }

    method ScheduleReplication(p: Id)
      requires N.WellFormed(State()) && p in peers
      modifies this`inFlight, this`pending, this`out
      ensures State() == N.ScheduleReplication(old(State()), p)
    {
      if status != Leader {
        return;
      }
      if inFlight[p] {
        pending := pending[p := true];
        return;
      }
      var request;
      if nextIndex[p] <= snapIndex {
        request := InstallSnapshot(SnapshotArgs(currentTerm, id, snapIndex, snapTerm, disk.snapshot));
      } else {
        var append := BuildAppendEntries(p);
        request := AppendEntries(append);
      }
      hide N.WellFormed, N.BuildAppend;
      Launch(p, request);
    }

    /** Hand a request to the transport: the peer is busy until it is answered. */
    method Launch(p: Id, request: Request)
      modifies this`inFlight, this`pending, this`out
      ensures inFlight == old(inFlight)[p := true] && pending == old(pending)[p := false]
      ensures out == old(out) + [Send(p, request)]
    {
      inFlight, pending := inFlight[p := true], pending[p := false];
      out := out + [Send(p, request)];
    }

    method ScheduleAllReplication()
      requires N.WellFormed(State())
      modifies this`inFlight, this`pending, this`out
      ensures State() == N.ScheduleAllReplication(old(State()))
    {
      if status != Leader {
        return;
      }
      var k := 0;
      while k < |peers|
        invariant k <= |peers| && State() == N.ScheduleFirst(old(State()), k)
      {
        ScheduleReplication(peers[k]);
        k := k + 1;
      }
    }

    // -------------------------------------------------------------- committing

    method ApplyCommitted()
      requires N.WellFormed(State()) && commitIndex <= N.LastIndex(State())
      modifies this`lastApplied, this`applyQueue, this`out
      ensures State() == N.ApplyCommitted(old(State()))
    {
      N.LastIndexIs(State());
      if lastApplied < commitIndex {
        PushCommitted();
      }
    }

    /** The loop of applyCommitted. */
    method PushCommitted()
      requires N.Contiguous(logs, snapIndex) && snapIndex <= lastApplied <= commitIndex <= snapIndex + |logs|
      modifies this`lastApplied, this`applyQueue, this`out
      ensures lastApplied == commitIndex
      ensures var msgs := N.CommandsOf(logs[old(lastApplied) - snapIndex..commitIndex - snapIndex]);
              applyQueue == old(applyQueue) + msgs && out == old(out) + N.Applies(msgs)
    {
      ghost var base := lastApplied - snapIndex;
      while lastApplied < commitIndex
        invariant old(lastApplied) <= lastApplied <= commitIndex
        invariant applyQueue == old(applyQueue) + N.CommandsOf(logs[base..lastApplied - snapIndex])
        invariant out == old(out) + N.Applies(N.CommandsOf(logs[base..lastApplied - snapIndex]))
        decreases commitIndex - lastApplied
      {
        CommandsGrow(logs, base, lastApplied - snapIndex);
        lastApplied := lastApplied + 1;
        var e := logs[lastApplied - snapIndex - 1];
        applyQueue := applyQueue + [CommandMsg(e.command, lastApplied, e.term)];
        out := out + [Apply(CommandMsg(e.command, lastApplied, e.term))];
      }
    }

    /** How many nodes, the leader included, are known to store index. */
    method CountReplicas(index: int) returns (replicated: int)
      requires N.PeersOk(State())
      ensures replicated == 1 + N.Matched(State(), index, |peers|)
    {
      replicated := 1;
      var k := 0;
      while k < |peers|
        invariant k <= |peers| && replicated == 1 + N.Matched(State(), index, k)
      {
        assert peers[k] in peers;
        if matchIndex[peers[k]] >= index {
          replicated := replicated + 1;
        }
        k := k + 1;
      }
    }

    /** The loop of updateCommitIndex: the greatest index to commit, or the commit index as it is. */
    method FindCommit() returns (index: int)
      requires N.WellFormed(State())
      ensures index == N.CommitScan(State(), N.LastIndex(State()))
    {
      index := GetLastLogIndex();
      while index > commitIndex
        invariant index <= N.LastIndex(State())
        invariant N.CommitScan(State(), index) == N.CommitScan(State(), N.LastIndex(State()))
        decreases index - commitIndex
      {
        var replicated := CountReplicas(index);
        if replicated >= QuorumSize() && N.TermOf(State(), index) == currentTerm {
          return;
        }
        index := index - 1;
      }
      index := commitIndex;
    }

    method CommitOwnTerm(index: int)
      requires 0 <= index - snapIndex - 1 < |logs|
      modifies this`commitIndex, this`currentTermCommitted, this`out
      ensures commitIndex == index && currentTermCommitted
      ensures out == old(out) + [Committed(logs[index - snapIndex - 1])]
    {
      commitIndex := index;
      if !currentTermCommitted {
        currentTermCommitted := true;
      }
      out := out + [Committed(logs[index - snapIndex - 1])];
    }

    method CommitUpTo(index: int)
      requires N.WellFormed(State()) && commitIndex < index <= N.LastIndex(State())
      modifies this`commitIndex, this`currentTermCommitted, this`lastApplied, this`applyQueue, this`out
      ensures var r := N.CommitAt(N.Announce(old(State()), index), index);
              && commitIndex == r.commitIndex && currentTermCommitted == r.currentTermCommitted
              && lastApplied == r.lastApplied && applyQueue == r.applyQueue && out == r.out
    {
      N.LastIndexIs(State());
      CommitIs(State(), index);
      hide N.WellFormed, N.CommitAt, N.Announce;
      CommitOwnTerm(index);
      if lastApplied < commitIndex {
        PushCommitted();
      }
    }

    method UpdateCommitIndex()
      requires N.WellFormed(State())
      modifies this`commitIndex, this`currentTermCommitted, this`lastApplied, this`applyQueue, this`out
      ensures State() == N.UpdateCommit(old(State()))
    {
      var index := FindCommit();
      hide N.CommitScan, N.Committable, N.ApplyCommitted;
      if index != commitIndex {
        CommitUpTo(index);
      }
    }

    // -------------------------------------------------------------- elections

    /** The loop of becomeLeader over the peers. */
    method ResetPeers(next: int)
      modifies this`nextIndex, this`matchIndex, this`inFlight, this`pending
      ensures nextIndex == N.SetAll(old(nextIndex), peers, next) && matchIndex == N.SetAll(old(matchIndex), peers, 0)
      ensures inFlight == N.SetAll(old(inFlight), peers, false) && pending == N.SetAll(old(pending), peers, false)
    {
      var k := 0;
      while k < |peers|
        invariant k <= |peers|
        invariant nextIndex == N.SetAll(old(nextIndex), peers[..k], next)
        invariant matchIndex == N.SetAll(old(matchIndex), peers[..k], 0)
        invariant inFlight == N.SetAll(old(inFlight), peers[..k], false)
        invariant pending == N.SetAll(old(pending), peers[..k], false)
      {
        assert peers[..k + 1][..k] == peers[..k];
        nextIndex := nextIndex[peers[k] := next];
        matchIndex := matchIndex[peers[k] := 0];
        inFlight := inFlight[peers[k] := false];
        pending := pending[peers[k] := false];
        k := k + 1;
      }
      assert peers[..k] == peers;
    }

    method AppendOwn(op: Op)
      requires N.WellFormed(State())
      modifies this`logs, this`disk
      ensures State() == N.AppendEntry(old(State()), op)
    {
      logs := logs + [Entry(currentTerm, GetLastLogIndex() + 1, op)];
      Persist();
    }

    method ToLeader()
      requires N.WellFormed(State())
      modifies this`status, this`votesGranted, this`preVotesGranted, this`nextIndex, this`matchIndex, this`inFlight,
               this`pending, this`out
      ensures var r := N.TakeOffice(old(State()));
              && status == r.status && votesGranted == r.votesGranted && preVotesGranted == r.preVotesGranted
              && nextIndex == r.nextIndex && matchIndex == r.matchIndex && inFlight == r.inFlight
              && pending == r.pending && out == r.out
    {
      var next := GetLastLogIndex() + 1;
      EnterRole(Leader);
      out := out + [Elected(currentTerm)];
      ResetPeers(next);
    }

    method BecomeLeader(junk: int)
      requires N.WellFormed(State())
      modifies this
      ensures State() == N.BecomeLeader(old(State()), junk)
    {
      ToLeader();
      assert State() == N.TakeOffice(old(State()));
      hide N.TakeOffice, N.AppendEntry, N.ScheduleAllReplication;
      AppendOwn(Noop(junk));
      ScheduleAllReplication();
    }

    /** The loop that hands the same request to the transport for every peer. */
    method AskPeers(request: Request)
      modifies this`out
      ensures out == old(out) + N.ToPeers(old(State()), request)
    {
      var k := 0;
      while k < |peers|
        invariant k <= |peers| && out == old(out) + N.ToPeers(old(State()), request)[..k]
      {
        out := out + [Send(peers[k], request)];
        k := k + 1;
      }
    }

    method ToCandidate()
      modifies this`status, this`currentTerm, this`votedFor, this`votesGranted, this`electionTerm, this`disk
      ensures status == Candidate && currentTerm == old(currentTerm) + 1 && votedFor == id && votesGranted == 1
      ensures electionTerm == currentTerm
      ensures disk == N.Disk(N.PersistentState(currentTerm, votedFor, logs, snapIndex, snapTerm), old(disk).snapshot)
    {
      status := Candidate;
      EnterTerm(currentTerm + 1, id);
      votesGranted, electionTerm := 1, currentTerm;
      Persist();
    }

    /** Enter a new term as candidate and ask every peer for its vote. */
    method OpenElection()
      requires N.WellFormed(State())
      modifies this`status, this`currentTerm, this`votedFor, this`votesGranted, this`electionTerm, this`disk, this`out
      ensures State() == N.Canvass(N.Campaign(old(State())))
    {
      ToCandidate();
      assert State() == N.Campaign(old(State()));
      hide N.Campaign, N.WellFormed;
      AskPeers(RequestVote(N.VoteRequestOf(State())));
    }

    method BeginElection(junk: int)
      requires N.WellFormed(State())
      modifies this
      ensures State() == N.BeginElection(old(State()), junk)
    {
      hide N.Campaign, N.Canvass, N.BecomeLeader;
      if status == Leader {
        return;
      }
      OpenElection();
      if votesGranted >= QuorumSize() {
        BecomeLeader(junk);
      }
    }

    method ToPreCandidate()
      modifies this`status, this`preVoteTerm, this`preVotesGranted, this`preVoteRound
      ensures status == PreCandidate && preVoteTerm == currentTerm + 1 && preVotesGranted == 1
      ensures preVoteRound == old(preVoteRound) + 1
    {
      status, preVoteTerm, preVotesGranted := PreCandidate, currentTerm + 1, 1;
      preVoteRound := preVoteRound + 1;
    }

    method OpenPreVote()
      requires N.WellFormed(State())
      modifies this`status, this`preVoteTerm, this`preVotesGranted, this`preVoteRound, this`out
      ensures State() == N.Probe(old(State()))
    {
      hide N.WellFormed;
      ToPreCandidate();
      AskPeers(PreVote(N.VoteRequestOf(State()).(term := preVoteTerm), preVoteRound));
    }

    method BeginPreVote(junk: int)
      requires N.WellFormed(State())
      modifies this
      ensures State() == N.BeginPreVote(old(State()), junk)
    {
      hide N.Probe, N.BeginElection;
      if status == Leader {
        return;
      }
      OpenPreVote();
      if preVotesGranted >= QuorumSize() {
        BeginElection(junk);
      }
    }

    method HandlePreVoteReply(term: int, round: int, reply: Option<VoteReply>, junk: int)
      requires N.WellFormed(State())
      modifies this
      ensures State() == N.OnPreVoteReply(old(State()), term, round, reply, junk)
    {
      hide N.BecomeFollower, N.BeginElection;
      if reply.None? {
        return;
      }
      if reply.value.term > currentTerm {
        BecomeFollower(reply.value.term);
        return;
      }
      if status != PreCandidate || term != preVoteTerm || round != preVoteRound || !reply.value.granted {
        return;
      }
      preVotesGranted := preVotesGranted + 1;
      if preVotesGranted >= QuorumSize() {
        BeginElection(junk);
      }
    }

    method HandleVoteReply(term: int, reply: Option<VoteReply>, junk: int)
      requires N.WellFormed(State())
      modifies this
      ensures State() == N.OnVoteReply(old(State()), term, reply, junk)
    {
      hide N.BecomeFollower, N.BecomeLeader;
      if reply.None? {
        return;
      }
      if reply.value.term > currentTerm {
        BecomeFollower(reply.value.term);
        return;
      }
      if status != Candidate || term != currentTerm || electionTerm != currentTerm || !reply.value.granted {
        return;
      }
      votesGranted := votesGranted + 1;
      if votesGranted >= QuorumSize() {
        BecomeLeader(junk);
      }
    }

    // -------------------------------------------------------------- requests from other nodes

    method SeeTerm(term: int)
      modifies this`currentTerm, this`votedFor, this`disk, this`status, this`votesGranted, this`preVotesGranted,
               this`currentTermCommitted, this`activeRead, this`readPending, this`out
      ensures State() == N.SeeTerm(old(State()), term)
    {
      hide N.BecomeFollower, N.WellFormed;
      if term > currentTerm {
        BecomeFollower(term);
      }
    }

    method Vote(candidate: Id)
      modifies this`votedFor, this`disk
      ensures State() == N.Persist(old(State()).(votedFor := candidate))
    {
      hide N.WellFormed;
      votedFor := candidate;
      Persist();
    }

    method HandleRequestVote(a: VoteArgs) returns (reply: VoteReply)
      requires N.WellFormed(State())
      modifies this
      ensures (State(), reply) == N.TakeVote(old(State()), a)
    {
      hide N.SeeTerm, N.Persist;
      SeeTerm(a.term);
      if a.term < currentTerm {
        return VoteReply(currentTerm, false, EXPIRED);
      }
      var mayVote := votedFor == NO_VOTE || votedFor == a.candidate;
      var upToDate := N.WhetherVoteFor(State(), a.lastIndex, a.lastTerm);
      var granted := mayVote && upToDate;
      if granted {
        if votedFor != a.candidate {
          Vote(a.candidate);
        }
      }
      reply := VoteReply(currentTerm, granted, if granted then NORMAL else if mayVote then LOG_OUTDATED else VOTED);
    }

    method HandlePreVote(a: VoteArgs, recentLeader: bool) returns (reply: VoteReply)
      ensures reply == N.TakePreVote(State(), a, recentLeader)
    {
      if a.term < currentTerm {
        return VoteReply(currentTerm, false, EXPIRED);
      }
      var upToDate := N.WhetherVoteFor(State(), a.lastIndex, a.lastTerm);
      var granted := !recentLeader && upToDate;
      reply := VoteReply(currentTerm, granted, if granted then NORMAL else if upToDate then VOTED else NOT_UP_TO_DATE);
    }

    /** The walk back over a run of equal terms, after a mismatch. */
    method SuggestIndex(prev: int) returns (conflictIndex: int)
      requires N.WellFormed(State())
      ensures conflictIndex == N.Suggest(State(), prev)
    {
      conflictIndex := N.Min(prev, GetLastLogIndex());
      if conflictIndex <= snapIndex {
        conflictIndex := snapIndex + 1;
      } else {
        ghost var start := conflictIndex;
        var conflictTerm := N.TermOf(State(), conflictIndex);
        while conflictIndex > snapIndex + 1 && N.TermOf(State(), conflictIndex - 1) == conflictTerm
          invariant snapIndex < conflictIndex <= start && N.TermOf(State(), conflictIndex) == conflictTerm
          invariant N.WalkBack(State(), conflictIndex) == N.WalkBack(State(), start)
        {
          conflictIndex := conflictIndex - 1;
        }
      }
    }

    /** The loop over the incoming entries. */
    method MergeEntries(entries: seq<Entry>, prev: int) returns (changed: bool)
      requires N.Contiguous(logs, snapIndex) && snapIndex <= prev <= snapIndex + |logs| && N.Contiguous(entries, prev)
      modifies this`logs
      ensures (logs, changed) == N.Merge(old(logs), snapIndex, prev, entries)
    {
      changed := false;
      var i := 0;
      while i < |entries|
        invariant i <= |entries| && N.Contiguous(entries[..i], prev)
        invariant (logs, changed) == N.Merge(old(logs), snapIndex, prev, entries[..i])
      {
        assert entries[..i + 1][..i] == entries[..i];
        var incoming := entries[i];
        assert incoming.index == prev + 1 + i;
        var pos := incoming.index - snapIndex - 1;
        if pos < |logs| {
          if logs[pos].term != incoming.term {
            logs := logs[..pos];
            logs := logs + [incoming];
            changed := true;
          }
        } else {
          logs := logs + [incoming];
          changed := true;
        }
        i := i + 1;
      }
      assert entries[..i] == entries;
    }

    method StoreEntries(a: AppendArgs)
      requires N.WellFormed(State()) && status != Leader && N.AppendOk(a)
      requires snapIndex <= a.prevIndex <= N.LastIndex(State())
      modifies this`logs, this`disk
      ensures State() == N.StoreEntries(old(State()), a)
    {
      N.LastIndexIs(State());
      hide N.Merge;
      var changed := MergeEntries(a.entries, a.prevIndex);
      if changed {
        Persist();
      }
    }

    method CommitTo(leaderCommit: int)
      requires N.WellFormed(State())
      modifies this`commitIndex, this`lastApplied, this`applyQueue, this`out
      ensures State() == N.CommitTo(old(State()), leaderCommit)
    {
      if leaderCommit > commitIndex {
        N.LastIndexIs(State());
        commitIndex := N.Min(GetLastLogIndex(), leaderCommit);
        hide N.ApplyCommitted;
        ApplyCommitted();
      }
    }

    method FollowAppend(a: AppendArgs) returns (reply: AppendReply)
      requires N.WellFormed(State()) && N.AppendOk(a) && status == Follower
      modifies this
      ensures (State(), reply) == N.FollowAppend(old(State()), a)
    {
      hide N.StoreEntries, N.CommitTo, N.Suggest;
      var matches := N.Matches(State(), a.prevIndex, a.prevTerm);
      if !matches {
        var conflictIndex := SuggestIndex(a.prevIndex);
        return AppendReply(currentTerm, false, conflictIndex, LOG_OUTDATED, None);
      }
      StoreEntries(a);
      CommitTo(a.leaderCommit);
      reply := AppendReply(currentTerm, true, NO_SUGGESTION, NORMAL, None);
    }

    method HandleAppendEntries(a: AppendArgs) returns (reply: AppendReply)
      requires N.WellFormed(State()) && N.AppendOk(a)
      modifies this
      ensures (State(), reply) == N.TakeAppend(old(State()), a)
    {
      hide N.SeeTerm, N.FollowAppend;
      SeeTerm(a.term);
      if a.term < currentTerm {
        return AppendReply(currentTerm, false, NO_SUGGESTION, EXPIRED, None);
      }
      status := Follower;
      reply := FollowAppend(a);
    }

    method HandleReadHeartBeat(a: AppendArgs) returns (reply: AppendReply)
      requires N.WellFormed(State())
      modifies this
      ensures (State(), reply) == N.TakeReadHeartBeat(old(State()), a)
    {
      hide N.SeeTerm;
      SeeTerm(a.term);
      if a.term < currentTerm {
        return AppendReply(currentTerm, false, 100, EXPIRED, a.readRound);
      }
      status := Follower;
      reply := AppendReply(currentTerm, true, NO_SUGGESTION, NORMAL, a.readRound);
    }

    /** Drop what the snapshot covers: everything, unless the log goes on from the snapshot's last entry. */
    method DropCovered(a: SnapshotArgs)
      requires N.WellFormed(State()) && a.lastIndex > snapIndex
      modifies this`logs, this`snapIndex, this`snapTerm
      ensures logs == if N.KeepsSuffix(old(State()), a) then old(logs)[a.lastIndex - old(snapIndex)..] else []
      ensures snapIndex == a.lastIndex && snapTerm == a.lastTerm
    {
      N.LastIndexIs(State());
      var keepSuffix := N.KeepsSuffix(State(), a);
      if keepSuffix && GetLastLogIndex() > a.lastIndex {
        logs := logs[a.lastIndex - snapIndex..];
      } else {
        logs := [];
      }
      snapIndex, snapTerm := a.lastIndex, a.lastTerm;
    }

    /** Save the snapshot with the record and pass it on. */
    method SaveSnapshot(data: string)
      modifies this`commitIndex, this`lastApplied, this`disk, this`applyQueue, this`out
      ensures commitIndex == N.Max(old(commitIndex), snapIndex) && lastApplied == N.Max(old(lastApplied), snapIndex)
      ensures disk == N.Disk(N.PersistentState(currentTerm, votedFor, logs, snapIndex, snapTerm), data)
      ensures applyQueue == old(applyQueue) + [SnapshotMsg(data, snapIndex, snapTerm)]
      ensures out == old(out) + [Apply(SnapshotMsg(data, snapIndex, snapTerm))]
    {
      commitIndex := N.Max(commitIndex, snapIndex);
      lastApplied := N.Max(lastApplied, snapIndex);
      disk := N.Disk(N.PersistentState(currentTerm, votedFor, logs, snapIndex, snapTerm), data);
      var msg := SnapshotMsg(data, snapIndex, snapTerm);
      applyQueue, out := applyQueue + [msg], out + [Apply(msg)];
    }

    method Install(a: SnapshotArgs)
      requires N.WellFormed(State()) && status != Leader && a.lastIndex > snapIndex
      modifies this`logs, this`snapIndex, this`snapTerm, this`commitIndex, this`lastApplied, this`disk,
               this`applyQueue, this`out
      ensures State() == N.Install(old(State()), a)
    {
      DropCovered(a);
      hide N.KeepsSuffix, N.WellFormed;
      SaveSnapshot(a.data);
    }

    method HandleInstallSnapshot(a: SnapshotArgs) returns (reply: SnapshotReply)
      requires N.WellFormed(State())
      modifies this
      ensures (State(), reply) == N.TakeSnapshot(old(State()), a)
    {
      hide N.SeeTerm, N.Install;
      SeeTerm(a.term);
      if a.term < currentTerm {
        return SnapshotReply(currentTerm);
      }
      status := Follower;
      if a.lastIndex > snapIndex {
        Install(a);
      }
      reply := SnapshotReply(currentTerm);
    }

    // -------------------------------------------------------------- answers from other nodes

    method ScheduleHeartBeat(p: Id, round: nat)
      requires N.WellFormed(State()) && p in peers && N.HeartBeatSafe(State(), p)
      modifies this`inFlight, this`readPending, this`out
      ensures State() == N.ScheduleHeartBeat(old(State()), p, round)
    {
      if status != Leader {
        return;
      }
      if activeRead.None? || activeRead.value.number != round {
        return;
      }
      if inFlight[p] {
        readPending := readPending[p := round];
        return;
      }
      var request := N.BuildReadHeartBeat(State(), p, round);
      inFlight := inFlight[p := true];
      out := out + [Send(p, AppendEntries(request))];
    }

    method TrySchedulePendingReadHeartBeat(p: Id)
      requires N.WellFormed(State()) && p in peers && N.HeartBeatSafe(State(), p)
      modifies this`inFlight, this`readPending, this`out
      ensures State() == N.TryReadHeartBeat(old(State()), p)
    {
      hide N.ScheduleHeartBeat;
      if status != Leader {
        return;
      }
      if p !in readPending || readPending[p] == 0 {
        return;
      }
      if activeRead.None? || activeRead.value.number != readPending[p] {
        readPending := readPending[p := 0];
        return;
      }
      if inFlight[p] {
        return;
      }
      var round := readPending[p];
      readPending := readPending[p := 0];
      ScheduleHeartBeat(p, round);
    }

    /** The end of handleAppendReply: replication goes before read heartbeats that wait. */
    method Continue(p: Id, retry: bool)
      requires N.WellFormed(State()) && p in peers && status == Leader
      modifies this`inFlight, this`pending, this`readPending, this`out
      ensures State() == N.Continue(old(State()), p, retry)
    {
      hide N.ScheduleReplication, N.TryReadHeartBeat;
      if retry || pending[p] || nextIndex[p] <= GetLastLogIndex() {
        ScheduleReplication(p);
      } else {
        TrySchedulePendingReadHeartBeat(p);
      }
    }

    method Credit(p: Id, index: int)
      requires N.WellFormed(State()) && p in peers && status == Leader && index <= N.LastIndex(State())
      modifies this`matchIndex, this`nextIndex
      ensures State() == N.Credit(old(State()), p, index)
    {
      matchIndex := matchIndex[p := N.Max(matchIndex[p], index)];
      nextIndex := nextIndex[p := matchIndex[p] + 1];
    }

    method TryNext(p: Id, suggestion: int)
      requires N.WellFormed(State()) && p in peers && status == Leader
      modifies this`nextIndex
      ensures State() == N.TryNext(old(State()), p, suggestion)
    {
      var suggested := suggestion;
      if suggested == NO_SUGGESTION {
        suggested := nextIndex[p] - 1;
      }
      suggested := N.Max(1, N.Min(suggested, GetLastLogIndex() + 1));
      if suggested >= nextIndex[p] {
        suggested := N.Max(1, nextIndex[p] - 1);
      }
      nextIndex := nextIndex[p := suggested];
    }

    method OnReadAck(p: Id, number: nat)
      requires N.WellFormed(State()) && p in peers && status == Leader
      modifies this
      ensures State() == N.OnReadAck(old(State()), p, number)
    {
      hide N.Continue, N.CloseRead;
      if activeRead.None? {
        return;
      }
      if activeRead.value.term != currentTerm || activeRead.value.number != number {
        return;
      }
      activeRead := Some(activeRead.value.(acks := activeRead.value.acks + {p}));
      if |activeRead.value.acks| >= QuorumSize() {
        CompleteActiveRead();
      }
      Continue(p, false);
    }

    method CompleteActiveRead()
      modifies this`activeRead, this`readPending, this`out
      ensures State() == N.CloseRead(old(State()), true)
    {
      hide N.WellFormed;
      CloseActiveRead(true);
    }

    method OnMatch(p: Id, index: int)
      requires N.WellFormed(State()) && p in peers && status == Leader && index <= N.LastIndex(State())
      modifies this
      ensures State() == N.OnMatch(old(State()), p, index)
    {
      Credit(p, index);
      hide N.Credit, N.UpdateCommit, N.Continue;
      UpdateCommitIndex();
      Continue(p, false);
    }

    method Retry(p: Id, suggestion: int)
      requires N.WellFormed(State()) && p in peers && status == Leader
      modifies this`nextIndex, this`inFlight, this`pending, this`readPending, this`out
      ensures State() == N.Retry(old(State()), p, suggestion)
    {
      TryNext(p, suggestion);
      hide N.TryNext, N.Continue;
      Continue(p, true);
    }

    method HandleAppendReply(p: Id, request: AppendArgs, reply: Option<AppendReply>)
      requires N.WellFormed(State()) && p in peers && N.OwnRequest(State(), request)
      modifies this
      ensures State() == N.OnAppendReply(old(State()), p, request, reply)
    {
      hide N.BecomeFollower, N.OnReadAck, N.OnMatch, N.Retry;
      if status != Leader || request.term != currentTerm {
        return;
      }
      inFlight := inFlight[p := false];
      assert State() == N.Idle(old(State()), p);
      if reply.None? {
        return;
      }
      hide N.Idle;
      var a := reply.value;
      if a.term > currentTerm {
        BecomeFollower(a.term);
        return;
      }
      if a.term < currentTerm {
        return;
      }
      if a.success {
        if a.readRound.Some? && a.readRound.value > 0 {
          OnReadAck(p, a.readRound.value);
        } else {
          OnMatch(p, request.prevIndex + |request.entries|);
        }
      } else {
        Retry(p, a.updateNextIndex);
      }
    }

    method HandleSnapshotReply(p: Id, term: int, reply: Option<SnapshotReply>)
      requires N.WellFormed(State()) && p in peers
      modifies this
      ensures State() == N.OnSnapshotReply(old(State()), p, term, reply)
    {
      hide N.BecomeFollower, N.ScheduleReplication;
      if status != Leader || term != currentTerm {
        return;
      }
      inFlight := inFlight[p := false];
      assert State() == N.Idle(old(State()), p);
      if reply.None? {
        return;
      }
      if reply.value.term > currentTerm {
        BecomeFollower(reply.value.term);
        return;
      }
      if reply.value.term < currentTerm {
        return;
      }
      N.LastIndexIs(State());
      Credit(p, snapIndex);
      hide N.Idle, N.Credit;
      if pending[p] || nextIndex[p] <= GetLastLogIndex() {
        ScheduleReplication(p);
      }
    }

    // -------------------------------------------------------------- calls from the state machine

    method Start(op: Op)
      requires N.WellFormed(State())
      modifies this
      ensures State() == N.Start(old(State()), op)
    {
      hide N.UpdateCommit, N.ScheduleAllReplication, N.AppendEntry;
      if status != Leader {
        return;
      }
      var entry := Entry(currentTerm, GetLastLogIndex() + 1, op);
      AppendOwn(op);
      UpdateCommitIndex();
      ScheduleAllReplication();
      out := out + [Started(entry)];
    }

    method ScheduleAllHeartBeat(round: nat)
      requires N.WellFormed(State()) && forall p | p in peers :: N.HeartBeatSafe(State(), p)
      modifies this`inFlight, this`readPending, this`out
      ensures State() == N.HeartBeatFirst(old(State()), round, |peers|)
    {
      hide N.ScheduleHeartBeat;
      var k := 0;
      while k < |peers|
        invariant k <= |peers| && State() == N.HeartBeatFirst(old(State()), round, k)
      {
        ScheduleHeartBeat(peers[k], round);
        k := k + 1;
      }
    }

    /** round is the next value of the counter that all nodes of the process share. */
    method ReadIndex(round: nat, callback: nat)
      requires N.WellFormed(State()) && readIndexRound < round && N.ReadSafe(State())
      modifies this
      ensures State() == N.ReadIndex(old(State()), round, callback)
    {
      hide N.HeartBeatFirst;
      if status != Leader {
        out := out + [Answer(callback, false, -1, -1)];
        return;
      }
      if !currentTermCommitted {
        out := out + [Answer(callback, false, -2, -2)];
        return;
      }
      if activeRead.Some? {
        activeRead := Some(activeRead.value.(callbacks := activeRead.value.callbacks + [callback]));
        return;
      }
      OpenRound(round, callback);
      ScheduleAllHeartBeat(round);
    }

    method OpenRound(round: nat, callback: nat)
      requires N.WellFormed(State())
      modifies this`activeRead, this`readIndexRound, this`out
      ensures State() == N.OpenRound(old(State()), round, callback)
    {
      activeRead := Some(N.ReadRound(round, currentTerm, commitIndex, {id}, [callback]));
      readIndexRound := round;
      out := out + [Opened(currentTerm, round, commitIndex)];
    }

    method Truncate(index: int)
      requires N.WellFormed(State()) && snapIndex < index <= N.LastIndex(State())
      modifies this`logs, this`snapIndex, this`snapTerm
      ensures logs == old(logs)[index - old(snapIndex)..] && snapIndex == index
      ensures snapTerm == N.TermOf(old(State()), index)
    {
      N.LastIndexIs(State());
      var term := N.TermOf(State(), index);
      logs := logs[index - snapIndex..];
      snapIndex, snapTerm := index, term;
    }

    method DoSnapshot(index: int, data: string)
      requires N.WellFormed(State()) && commitIndex <= N.LastIndex(State())
      modifies this
      ensures State() == N.DoSnapshot(old(State()), index, data)
    {
      if index <= snapIndex || index > commitIndex {
        return;
      }
      Truncate(index);
      hide N.WellFormed, N.TermOf;
      lastApplied := N.Max(lastApplied, index);
      disk := N.Disk(N.PersistentState(currentTerm, votedFor, logs, snapIndex, snapTerm), data);
    }
  }

  /** Committing up to index, field by field. */
  lemma CommitIs(n: N.Node, index: int)
    requires N.WellFormed(n) && n.commitIndex < index <= N.LastIndex(n)
    ensures var r := N.CommitAt(N.Announce(n, index), index);
            var committed := n.out + [Committed(n.logs[index - n.snapIndex - 1])];
            && r.commitIndex == index && r.currentTermCommitted && r.lastApplied == N.Max(n.lastApplied, index)
            && (index <= n.lastApplied ==> r.applyQueue == n.applyQueue && r.out == committed)
            && (index > n.lastApplied ==>
                  var msgs := N.CommandsOf(n.logs[n.lastApplied - n.snapIndex..index - n.snapIndex]);
                  r.applyQueue == n.applyQueue + msgs && r.out == committed + N.Applies(msgs))
  {
    N.LastIndexIs(n);
  }

  lemma CommandsGrow(logs: seq<Entry>, low: int, high: int)
    requires 0 <= low <= high < |logs|
    ensures var msg := CommandMsg(logs[high].command, logs[high].index, logs[high].term);
            && N.CommandsOf(logs[low..high + 1]) == N.CommandsOf(logs[low..high]) + [msg]
            && N.Applies(N.CommandsOf(logs[low..high + 1])) == N.Applies(N.CommandsOf(logs[low..high])) + [Apply(msg)]
  {
    assert logs[low..high + 1] == logs[low..high] + [logs[high]];
  }
}
