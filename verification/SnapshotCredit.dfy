/**
 * What a leader credits a peer with when the answer to a snapshot comes in: the snapshot point of now, not the one that
 * was sent.  Above the commit point matchIndex is right all the same: see Safety.MatchIsStored.
 */
module SnapshotCredit {
  import opened Types
  import opened Cluster
  import B = Backtracking
  import N = Node
  import RA = ReadAssertion

  /** The leader, having sent its snapshot, compacts up to index and then gets the answer. */
  function Answered(n: N.Node, p: Id, index: int, data: string): (r: N.Node)
    requires N.WellFormed(n) && n.commitIndex <= N.LastIndex(n) && p in n.peers
    ensures N.WellFormed(r)
  {
    N.OnSnapshotReply(N.DoSnapshot(n, index, data), p, n.currentTerm, Some(SnapshotReply(n.currentTerm)))
  }

  lemma CreditIs(n: N.Node, p: Id)
    requires N.WellFormed(n) && n.status == Leader && p in n.peers
    ensures var r := N.OnSnapshotReply(n, p, n.currentTerm, Some(SnapshotReply(n.currentTerm)));
            && p in r.matchIndex && r.matchIndex[p] == N.Max(n.matchIndex[p], n.snapIndex)
            && r.status == Leader && r.currentTerm == n.currentTerm
  {
    hide N.ScheduleReplication;
  }

  lemma AnsweredIs(n: N.Node, p: Id, index: int, data: string)
    requires N.WellFormed(n) && n.commitIndex <= N.LastIndex(n) && n.status == Leader && p in n.peers
    ensures p in Answered(n, p, index, data).matchIndex
    ensures Answered(n, p, index, data).matchIndex[p] ==
            N.Max(n.matchIndex[p], if n.snapIndex < index <= n.commitIndex then index else n.snapIndex)
  {
    CreditIs(N.DoSnapshot(n, index, data), p);
    hide N.OnSnapshotReply;
  }

  /** The credit is that of the snapshot sent exactly if no further compaction came in between, or it was no more. */
  lemma CreditExactIff(n: N.Node, p: Id, index: int, data: string)
    requires N.WellFormed(n) && n.commitIndex <= N.LastIndex(n) && n.status == Leader && p in n.peers
    ensures var sent := N.BuildSnapshot(n).lastIndex;
            && p in Answered(n, p, index, data).matchIndex
            && (Answered(n, p, index, data).matchIndex[p] == N.Max(n.matchIndex[p], sent)
                <==> !(sent < index <= n.commitIndex) || index <= n.matchIndex[p])
  {
    AnsweredIs(n, p, index, data);
    hide Answered;
  }

  /** A peer whose log ends below the snapshot ends with it afterwards. */
  lemma ServedEnds(n: N.Node, f: N.Node)
    requires N.WellFormed(f) && f.currentTerm <= n.currentTerm && N.LastIndex(f) < n.snapIndex
    ensures N.LastIndex(B.Served(n, f)) == n.snapIndex
  {
    N.LastIndexIs(f);
    B.SeeTermPoint(f, n.currentTerm);
    hide N.SeeTerm;
  }

  /** For such a peer the credit stays within its log exactly if the leader did not compact further in between. */
  lemma CreditStoredIff(n: N.Node, p: Id, f: N.Node, index: int, data: string)
    requires N.WellFormed(n) && n.commitIndex <= N.LastIndex(n) && n.status == Leader && p in n.peers
    requires n.matchIndex[p] <= n.snapIndex
    requires N.WellFormed(f) && f.currentTerm <= n.currentTerm && N.LastIndex(f) < n.snapIndex
    ensures p in Answered(n, p, index, data).matchIndex
    ensures Answered(n, p, index, data).matchIndex[p] <= N.LastIndex(B.Served(n, f))
            <==> !(n.snapIndex < index <= n.commitIndex)
  {
    AnsweredIs(n, p, index, data);
    ServedEnds(n, f);
    hide Answered, B.Served;
  }

  // ---------------------------------------------------------------- a run that over-credits

  // The run of ReadAssertion, whose leader has compacted its first entry while node 2 is empty, goes on: the leader
  // sends node 2 its snapshot, commits a second entry with node 1 and compacts that too, and only then node 2 takes the
  // snapshot.

  const OP := Op("PUT", "k", "v", "c", 1)
  const SECOND := Entry(1, 2, OP)
  const OFFER2 := AppendArgs(1, 0, 1, 1, [SECOND], 1, None)
  const SNAPSHOT := SnapshotArgs(1, 0, 1, 1, "")
  const STORED2 := AppendReply(1, true, NO_SUGGESTION, NORMAL, None)

  /** Node 0 with its second entry, committed up to commit, and node 1 credited with stored. */
  predicate Leads2(n: N.Node, commit: int, stored: int) {
    && N.WellFormed(n) && n.status == Leader && n.currentTerm == 1 && n.peers == [1, 2]
    && n.snapIndex == 1 && n.snapTerm == 1 && n.logs == [SECOND]
    && n.commitIndex == commit && n.lastApplied == commit
    && 1 in n.peers && 2 in n.peers && n.matchIndex[1] == stored && n.matchIndex[2] == 0
  }

  lemma ScanStays(n: N.Node)
    requires Leads2(n, 1, 1)
    ensures N.LastIndex(n) == 2 && N.UpdateCommit(n) == n
  {
    N.LastIndexIs(n);
    assert N.Matched(n, 2, 0) == 0 && N.Matched(n, 2, 1) == 0 && N.Matched(n, 2, 2) == 0;
    assert !N.Committable(n, 2);
    assert N.CommitScan(n, 1) == 1;
  }

  /** Node 0 after its first compaction, idle towards both peers. */
  predicate Compacted1(n: N.Node) {
    && n.status == Leader && n.currentTerm == 1 && n.peers == [1, 2] && n.logs == []
    && n.snapIndex == 1 && n.snapTerm == 1 && n.commitIndex == 1 && n.lastApplied == 1
    && n.matchIndex == map[1 := 1, 2 := 0] && n.nextIndex == map[1 := 2, 2 := 1]
    && n.inFlight == map[1 := false, 2 := false] && n.disk.snapshot == "" && n.id == 0 && n.out == []
  }

  lemma CompactedIs()
    ensures Compacted1(RA.Compacted())
  {
  }

  lemma AppendsSecond(n: N.Node)
    requires N.WellFormed(n) && Compacted1(n)
    ensures var r := N.AppendEntry(n, OP);
            && Leads2(r, 1, 1) && r.inFlight == n.inFlight && r.nextIndex == n.nextIndex
            && r.disk.snapshot == "" && r.id == 0 && r.out == []
  {
    hide N.WellFormed;
  }

  lemma SendsEntries(n: N.Node)
    requires Leads2(n, 1, 1) && n.id == 0 && n.nextIndex[1] == 2 && !n.inFlight[1]
    ensures var r := N.ScheduleReplication(n, 1);
            && Leads2(r, 1, 1) && r.id == 0 && r.nextIndex == n.nextIndex && r.inFlight == n.inFlight[1 := true]
            && r.disk == n.disk && r.out == n.out + [Send(1, AppendEntries(OFFER2))]
  {
    N.LastIndexIs(n);
    assert n.logs[0..] == [SECOND];
    assert N.BuildAppend(n, 1) == OFFER2;
    hide N.BuildAppend;
  }

  lemma SendsSnapshot(n: N.Node)
    requires Leads2(n, 1, 1) && n.id == 0 && n.nextIndex[2] == 1 && !n.inFlight[2] && n.disk.snapshot == ""
    ensures var r := N.ScheduleReplication(n, 2);
            Leads2(r, 1, 1) && r.out == n.out + [Send(2, InstallSnapshot(SNAPSHOT))]
  {
    assert N.BuildSnapshot(n) == SNAPSHOT;
  }

  lemma SendsBoth(n: N.Node)
    requires Leads2(n, 1, 1) && n.id == 0 && n.nextIndex[1] == 2 && n.nextIndex[2] == 1 && n.disk.snapshot == ""
    requires !n.inFlight[1] && !n.inFlight[2] && n.out == []
    ensures var r := N.ScheduleAllReplication(n);
            Leads2(r, 1, 1) && r.out == [Send(1, AppendEntries(OFFER2)), Send(2, InstallSnapshot(SNAPSHOT))]
  {
    SendsEntries(n);
    var n1 := N.ScheduleReplication(n, 1);
    SendsSnapshot(n1);
    hide N.ScheduleReplication;
    assert N.ScheduleFirst(n, 0) == n;
    assert N.ScheduleFirst(n, 1) == n1;
    assert N.ScheduleFirst(n, 2) == N.ScheduleReplication(n1, 2);
  }

  lemma StartsSecond(n: N.Node)
    requires N.WellFormed(n) && Compacted1(n)
    ensures var r := N.Start(n, OP);
            && Leads2(r, 1, 1)
            && r.out == [Send(1, AppendEntries(OFFER2)), Send(2, InstallSnapshot(SNAPSHOT)), Started(SECOND)]
  {
    AppendsSecond(n);
    var n1 := N.AppendEntry(n, OP);
    ScanStays(n1);
    SendsBoth(n1);
    assert N.LastIndex(n) == 1;
    hide N.WellFormed, N.AppendEntry, N.UpdateCommit, N.ScheduleAllReplication;
  }

  lemma Starts()
    ensures N.WellFormed(RA.Compacted())
    ensures var r := N.Start(RA.Compacted(), OP);
            && Leads2(r, 1, 1)
            && r.out == [Send(1, AppendEntries(OFFER2)), Send(2, InstallSnapshot(SNAPSHOT)), Started(SECOND)]
  {
    RA.Compacts();
    CompactedIs();
    hide RA.Compacted, N.Start, N.WellFormed, Leads2;
    StartsSecond(RA.Compacted());
  }

  /** Node 1 stores the second entry. */
  lemma StoresSecond()
    ensures N.WellFormed(RA.HoldingFirst()) && N.AppendOk(OFFER2) && RA.HoldingFirst().out == []
    ensures N.TakeAppend(RA.HoldingFirst(), OFFER2).1 == STORED2
  {
    RA.StoresFirst();
    hide N.CommitTo, N.StoreEntries;
  }

  lemma ServesSecond()
    ensures SafeToServe(RA.HoldingFirst(), AppendEntries(OFFER2)) && RA.HoldingFirst().out == []
    ensures Serve(RA.HoldingFirst(), AppendEntries(OFFER2), false).1 == AppendAnswer(STORED2)
  {
    StoresSecond();
    hide N.WellFormed, N.TakeAppend, RA.HoldingFirst, N.AppendOk;
  }

  lemma CreditSecond(n: N.Node)
    requires Leads2(n, 1, 1)
    ensures Leads2(N.Credit(N.Idle(n, 1), 1, 2), 1, 2)
  {
    N.LastIndexIs(n);
  }

  lemma CommitSecond(n: N.Node)
    requires Leads2(n, 1, 2)
    ensures Leads2(N.UpdateCommit(n), 2, 2)
  {
    N.LastIndexIs(n);
    assert N.Matched(n, 2, 0) == 0 && N.Matched(n, 2, 1) == 1 && N.Matched(n, 2, 2) == 1;
    assert N.Committable(n, 2);
    assert N.CommitScan(n, 2) == 2;
  }

  lemma HearsStored2(n: N.Node)
    requires Leads2(n, 1, 1)
    ensures N.OwnRequest(n, OFFER2) && Leads2(N.OnAppendReply(n, 1, OFFER2, Some(STORED2)), 2, 2)
  {
    N.LastIndexIs(n);
    CreditSecond(n);
    var n1 := N.Credit(N.Idle(n, 1), 1, 2);
    CommitSecond(n1);
    var n2 := N.UpdateCommit(n1);
    SendingLeads(n2, N.Continue(n2, 1, false));
    hide N.WellFormed, N.Continue, N.UpdateCommit, N.Credit, N.Idle, Leads2;
  }

  lemma SendingLeads(n: N.Node, m: N.Node)
    requires Leads2(n, 2, 2) && N.SameButSending(n, m) && N.WellFormed(m)
    ensures Leads2(m, 2, 2)
  {
  }

  lemma CompactsSecond(n: N.Node)
    requires Leads2(n, 2, 2)
    ensures N.LastIndex(n) == 2
    ensures var r := N.DoSnapshot(n, 2, ""); Compacted2(r)
  {
    N.LastIndexIs(n);
  }

  /** Node 0 with both entries compacted, and nothing known of node 2. */
  predicate Compacted2(n: N.Node) {
    && N.WellFormed(n) && n.status == Leader && n.currentTerm == 1 && n.snapIndex == 2
    && 2 in n.peers && n.matchIndex[2] == 0
  }

  /** Node 2, empty until now, has the snapshot of the first entry. */
  lemma TakesFirst()
    ensures N.WellFormed(RA.Fresh2()) && RA.Fresh2().out == []
    ensures var (m, reply) := N.TakeSnapshot(RA.Fresh2(), SNAPSHOT);
            m.currentTerm == 1 && N.LastIndex(m) == 1 && reply == SnapshotReply(1)
  {
    var f := RA.Fresh2();
    assert N.WellFormed(f);
    B.SeeTermPoint(f, 1);
    hide N.SeeTerm, N.WellFormed;
  }

  // ---------------------------------------------------------------- the run, step by step

  predicate Requested(c: Cluster) {
    && c.nodes.Keys == {0, 1, 2} && |c.trace| > 10
    && c.trace[9] == Event(0, Send(1, AppendEntries(OFFER2)))
    && c.trace[10] == Event(0, Send(2, InstallSnapshot(SNAPSHOT)))
  }

  lemma RequestsKept(c: Cluster, i: Id, r: N.Node)
    requires Requested(c) && i in {0, 1, 2}
    ensures Requested(Emit(c, i, r))
    ensures forall j | j in {0, 1, 2} :: Emit(c, i, r).nodes[j] == if j == i then r else c.nodes[j]
  {
    RA.EmitKeeps(c, i, r);
  }

  lemma RequestsIn(trace: seq<Event>, out: seq<Output>)
    requires |trace| == 9
    requires out == [Send(1, AppendEntries(OFFER2)), Send(2, InstallSnapshot(SNAPSHOT)), Started(SECOND)]
    ensures var t := trace + Events(0, out);
            && |t| > 10 && t[9] == Event(0, Send(1, AppendEntries(OFFER2)))
            && t[10] == Event(0, Send(2, InstallSnapshot(SNAPSHOT)))
  {
    assert (trace + Events(0, out))[9] == Events(0, out)[0] && (trace + Events(0, out))[10] == Events(0, out)[1];
  }

  lemma CallsTo(b: Cluster, n: N.Node, r: N.Node)
    requires 0 in b.nodes && b.nodes[0] == n && n.out == [] && N.WellFormed(n) && N.Start(n, OP) == r
    ensures RA.StepsTo(b, Call(0, OP), Emit(b, 0, r))
  {
    assert Ready(b, 0) == n;
    hide N.WellFormed, N.Start, Emit;
  }

  lemma CallRequests(b: Cluster, r: N.Node)
    requires b.nodes.Keys == {0, 1, 2} && |b.trace| == 9
    requires r.out == [Send(1, AppendEntries(OFFER2)), Send(2, InstallSnapshot(SNAPSHOT)), Started(SECOND)]
    ensures Requested(Emit(b, 0, r))
  {
    RA.EmitKeeps(b, 0, r);
    RequestsIn(b.trace, r.out);
    assert Emit(b, 0, r).trace == b.trace + Events(0, r.out);
    hide Emit, Events;
  }

  lemma ToCall() returns (c: Cluster)
    ensures RA.StepsTo(RA.C9(), Call(0, OP), c) && Requested(c) && Leads2(c.nodes[0], 1, 1)
    ensures c.nodes[1] == RA.HoldingFirst() && c.nodes[2] == RA.Fresh2() && 9 !in c.closed && 10 !in c.closed
  {
    RA.To9();
    RA.Untouched();
    Starts();
    assert RA.Compacted().out == [];
    RA.Positions();
    hide N.WellFormed, N.Start, RA.Compacted, RA.C9, RA.HoldingFirst, RA.Fresh2, Leads2, RA.StepsTo, Requested;
    var b, n := RA.C9(), RA.Compacted();
    var r := N.Start(n, OP);
    CallsTo(b, n, r);
    CallRequests(b, r);
    RA.EmitKeeps(b, 0, r);
    c := Emit(b, 0, r);
  }

  /** Node 1 stores the second entry. */
  lemma ToStored(b: Cluster) returns (c: Cluster)
    requires Requested(b) && b.nodes[1] == RA.HoldingFirst()
    ensures RA.StepsTo(b, Deliver(9, false), c) && Requested(c)
    ensures c.nodes[0] == b.nodes[0] && c.nodes[2] == b.nodes[2] && c.closed == b.closed
    ensures 9 in c.replies && c.replies[9] == AppendAnswer(STORED2)
  {
    ServesSecond();
    assert Ready(b, 1) == RA.HoldingFirst();
    var r := Serve(RA.HoldingFirst(), AppendEntries(OFFER2), false).0;
    RequestsKept(b, 1, r);
    hide N.WellFormed, Serve, SafeToServe, RA.HoldingFirst, Emit;
    c := Emit(b, 1, r).(replies := b.replies[9 := AppendAnswer(STORED2)]);
  }

  /** The leader commits it. */
  lemma ToCommitted(b: Cluster) returns (c: Cluster)
    requires Requested(b) && Leads2(b.nodes[0], 1, 1) && 9 in b.replies && b.replies[9] == AppendAnswer(STORED2)
    requires 9 !in b.closed && 10 !in b.closed
    ensures RA.StepsTo(b, Receive(9, 0), c) && Requested(c) && Leads2(c.nodes[0], 2, 2)
    ensures c.nodes[2] == b.nodes[2] && 10 !in c.closed
  {
    var n := Ready(b, 0);
    assert Leads2(n, 1, 1);
    HearsStored2(n);
    var r := N.OnAppendReply(n, 1, OFFER2, Some(STORED2));
    RequestsKept(b, 0, r);
    hide N.OnAppendReply, Emit, N.OwnRequest;
    c := Emit(b, 0, r).(closed := b.closed + {9});
    assert Hear(n, 1, AppendEntries(OFFER2), Some(AppendAnswer(STORED2)), 0) == r;
  }

  /** The leader compacts that too, with its first snapshot still on the way. */
  lemma ToCompacted(b: Cluster) returns (c: Cluster)
    requires Requested(b) && Leads2(b.nodes[0], 2, 2) && 10 !in b.closed
    ensures RA.StepsTo(b, Compact(0, 2, ""), c) && Requested(c) && Compacted2(c.nodes[0])
    ensures c.nodes[2] == b.nodes[2] && 10 !in c.closed
  {
    var n := Ready(b, 0);
    assert Leads2(n, 2, 2);
    CompactsSecond(n);
    var r := N.DoSnapshot(n, 2, "");
    RequestsKept(b, 0, r);
    hide N.DoSnapshot, Emit;
    c := Emit(b, 0, r);
  }

  /** Node 2 takes the snapshot that was sent. */
  lemma ToServed(b: Cluster) returns (c: Cluster)
    requires Requested(b) && b.nodes[2] == RA.Fresh2() && 10 !in b.closed
    ensures RA.StepsTo(b, Deliver(10, false), c) && Requested(c) && c.nodes[0] == b.nodes[0] && c.closed == b.closed
    ensures c.nodes[2].currentTerm == 1 && N.LastIndex(c.nodes[2]) == 1
    ensures 10 in c.replies && c.replies[10] == SnapshotAnswer(SnapshotReply(1))
  {
    TakesFirst();
    assert Ready(b, 2) == RA.Fresh2();
    var r := N.TakeSnapshot(RA.Fresh2(), SNAPSHOT).0;
    RequestsKept(b, 2, r);
    hide N.WellFormed, N.TakeSnapshot, RA.Fresh2, Emit;
    c := Emit(b, 2, r).(replies := b.replies[10 := SnapshotAnswer(SnapshotReply(1))]);
    assert Serve(RA.Fresh2(), InstallSnapshot(SNAPSHOT), false) == (r, SnapshotAnswer(SnapshotReply(1)));
  }

  /** The leader credits node 2 with its snapshot point of now. */
  lemma ToCredited(b: Cluster) returns (c: Cluster)
    requires Requested(b) && Compacted2(b.nodes[0])
    requires 10 in b.replies && b.replies[10] == SnapshotAnswer(SnapshotReply(1)) && 10 !in b.closed
    ensures RA.StepsTo(b, Receive(10, 0), c) && Requested(c) && c.nodes[2] == b.nodes[2]
    ensures c.nodes[0].status == Leader && c.nodes[0].currentTerm == 1
    ensures 2 in c.nodes[0].matchIndex && c.nodes[0].matchIndex[2] == 2
  {
    var n := Ready(b, 0);
    assert Compacted2(n);
    CreditIs(n, 2);
    var r := N.OnSnapshotReply(n, 2, 1, Some(SnapshotReply(1)));
    RequestsKept(b, 0, r);
    hide N.OnSnapshotReply, Emit;
    c := Emit(b, 0, r).(closed := b.closed + {10});
    assert Hear(n, 2, InstallSnapshot(SNAPSHOT), Some(SnapshotAnswer(SnapshotReply(1))), 0) == r;
  }

  /** A run that ends with a leader whose matchIndex for node 2 lies beyond the log of node 2, in the leader's term. */
  lemma OverCredits() returns (s: seq<Cluster>, actions: seq<Action>)
    ensures Run(s, actions) && 0 in s[|actions|].nodes && 2 in s[|actions|].nodes
    ensures var n, m := s[|actions|].nodes[0], s[|actions|].nodes[2];
            && n.status == Leader && n.currentTerm == m.currentTerm
            && 2 in n.matchIndex && N.LastIndex(m) < n.matchIndex[2]
  {
    s, actions := RA.RunTo9();
    var c1 := ToCall();
    var c2 := ToStored(c1);
    var c3 := ToCommitted(c2);
    var c4 := ToCompacted(c3);
    var c5 := ToServed(c4);
    var c6 := ToCredited(c5);
    hide Run, RA.C9, RA.StepsTo;
    RA.RunGoesOn(s, actions, Call(0, OP), c1);
    s, actions := s + [c1], actions + [Call(0, OP)];
    RA.RunGoesOn(s, actions, Deliver(9, false), c2);
    s, actions := s + [c2], actions + [Deliver(9, false)];
    RA.RunGoesOn(s, actions, Receive(9, 0), c3);
    s, actions := s + [c3], actions + [Receive(9, 0)];
    RA.RunGoesOn(s, actions, Compact(0, 2, ""), c4);
    s, actions := s + [c4], actions + [Compact(0, 2, "")];
    RA.RunGoesOn(s, actions, Deliver(10, false), c5);
    s, actions := s + [c5], actions + [Deliver(10, false)];
    RA.RunGoesOn(s, actions, Receive(10, 0), c6);
    s, actions := s + [c6], actions + [Receive(10, 0)];
  }
}
