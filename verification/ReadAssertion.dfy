/**
 * When opening a read round trips the log index assertion: buildReadHeartBeat has no snapshot branch.  The condition
 * is exact, and a run is given that reaches a state where it fails.
 */
module ReadAssertion {
  import opened Types
  import opened Cluster
  import N = Node

  /** The assertion of getLogTermFromIndex for the entry before the peer's next index. */
  predicate IndexInLog(n: N.Node, p: Id)
    requires N.PeersOk(n) && p in n.peers
  {
    n.snapIndex <= n.nextIndex[p] - 1 <= N.LastIndex(n)
  }

  /** A read trips the assertion exactly if it opens a round while some idle peer needs compacted entries. */
  lemma ReadSafeIff(n: N.Node)
    requires N.WellFormed(n)
    ensures N.ReadSafe(n) <==> (N.OpensRound(n) ==> forall p | p in n.peers && !n.inFlight[p] :: IndexInLog(n, p))
  {
    if N.OpensRound(n) {
      forall p | p in n.peers ensures N.HeartBeatSafe(n, p) <==> n.inFlight[p] || IndexInLog(n, p) {}
    }
  }

  // ---------------------------------------------------------------- a run that gets there

  // Node 0 is elected by node 1, which stores its first entry; the request to node 2 fails; node 0 compacts.

  function Fresh0(): N.Node { N.Boot(0, [1, 2], N.BLANK_DISK) }
  function Fresh1(): N.Node { N.Boot(1, [0, 2], N.BLANK_DISK) }
  function Fresh2(): N.Node { N.Boot(2, [0, 1], N.BLANK_DISK) }

  function StartCluster(): Cluster {
    Cluster(map[0 := Fresh0(), 1 := Fresh1(), 2 := Fresh2()], [], {}, map[])
  }

  lemma Fresh0Is()
    ensures Fresh(Fresh0(), 0, {0, 1, 2})
  {
    assert {0} + (set p | p in [1, 2]) == {0, 1, 2};
  }

  lemma Fresh1Is()
    ensures Fresh(Fresh1(), 1, {0, 1, 2})
  {
    assert {1} + (set p | p in [0, 2]) == {0, 1, 2};
  }

  lemma Fresh2Is()
    ensures Fresh(Fresh2(), 2, {0, 1, 2})
  {
    assert {2} + (set p | p in [0, 1]) == {0, 1, 2};
  }

  lemma StartInitial()
    ensures Initial(StartCluster())
  {
    hide Fresh, Fresh0, Fresh1, Fresh2;
    Fresh0Is();
    Fresh1Is();
    Fresh2Is();
    var c := StartCluster();
    assert c.nodes.Keys == {0, 1, 2};
  }

  const ASK := VoteArgs(1, 0, 0, 0)
  const FIRST := Entry(1, 1, Noop(0))
  const RECORD := N.PersistentState(1, 0, [FIRST], 0, 0)

  /** Asking for pre-votes. */
  function Probing(): N.Node {
    Fresh0().(status := PreCandidate, preVoteTerm := 1, preVotesGranted := 1, preVoteRound := 1,
              out := [Send(1, PreVote(ASK, 1)), Send(2, PreVote(ASK, 1))])
  }

  lemma BeginsProbing()
    ensures N.WellFormed(Fresh0()) && N.BeginPreVote(Fresh0(), 0) == Probing()
  {
    var n := Fresh0();
    assert N.ToPeers(n, PreVote(ASK, 1)) == [Send(1, PreVote(ASK, 1)), Send(2, PreVote(ASK, 1))];
  }

  /** Asking for votes in term 1. */
  function Standing(): N.Node {
    Probing().(status := Candidate, currentTerm := 1, votedFor := 0, votesGranted := 1, electionTerm := 1,
               preVotesGranted := 2, disk := N.Disk(N.PersistentState(1, 0, [], 0, 0), ""),
               out := [Send(1, RequestVote(ASK)), Send(2, RequestVote(ASK))])
  }

  lemma BeginsStanding()
    ensures var n := Probing().(out := []);
            N.WellFormed(n) && N.OnPreVoteReply(n, 1, 1, Some(VoteReply(0, true, NORMAL)), 0) == Standing()
  {
    var n := Probing().(out := [], preVotesGranted := 2);
    assert N.ToPeers(N.Campaign(n), RequestVote(ASK)) == [Send(1, RequestVote(ASK)), Send(2, RequestVote(ASK))];
  }

  /** Node 1 votes. */
  function Granting(): N.Node {
    Fresh1().(currentTerm := 1, votedFor := 0, disk := N.Disk(N.PersistentState(1, 0, [], 0, 0), ""))
  }

  lemma Grants()
    ensures N.WellFormed(Fresh1()) && N.TakeVote(Fresh1(), ASK) == (Granting(), VoteReply(1, true, NORMAL))
  {
  }

  const OFFER := AppendArgs(1, 0, 0, 0, [FIRST], 0, None)

  /** Leading, with its first entry on the way to both peers. */
  function Leading(): N.Node {
    Standing().(status := Leader, votesGranted := 0, preVotesGranted := 0, logs := [FIRST], disk := N.Disk(RECORD, ""),
                nextIndex := map[1 := 1, 2 := 1], matchIndex := map[1 := 0, 2 := 0],
                inFlight := map[1 := true, 2 := true], pending := map[1 := false, 2 := false],
                out := [Elected(1), Send(1, AppendEntries(OFFER)), Send(2, AppendEntries(OFFER))])
  }

  /** Leading, before anything is sent. */
  function Enthroned(): N.Node {
    Leading().(inFlight := map[1 := false, 2 := false], out := [Elected(1)])
  }

  lemma SetBoth<V>(m: map<Id, V>, v: V)
    requires m.Keys == {1, 2}
    ensures N.SetAll(m, [1, 2], v) == map[1 := v, 2 := v]
  {
    var a, b := N.SetAll(m, [1, 2], v), map[1 := v, 2 := v];
    assert [1, 2][..1] == [1] && [1][..0] == [];
    assert N.SetAll(m, [1], v) == m[1 := v];
    assert a == m[1 := v][2 := v];
    forall p | p in a ensures p in b && a[p] == b[p] {
      assert p in {1, 2};
    }
    forall p | p in b ensures p in a {}
  }

  /** Node 0 as a candidate, with v votes. */
  function Counting(v: int): N.Node {
    Standing().(out := [], votesGranted := v)
  }

  lemma CountingOk(v: int)
    ensures N.WellFormed(Counting(v)) && N.LastIndex(Counting(v)) == 0
  {
  }

  function Crowned(): N.Node {
    Enthroned().(logs := [], disk := N.Disk(N.PersistentState(1, 0, [], 0, 0), ""))
  }

  lemma Crowns()
    ensures N.WellFormed(Counting(2)) && N.TakeOffice(Counting(2)) == Crowned()
  {
    CountingOk(2);
    hide N.WellFormed;
    var n := Counting(2);
    assert n.nextIndex.Keys == {1, 2} && n.matchIndex.Keys == {1, 2};
    assert n.inFlight.Keys == {1, 2} && n.pending.Keys == {1, 2};
    SetBoth(n.nextIndex, 1);
    SetBoth(n.matchIndex, 0);
    SetBoth(n.inFlight, false);
    SetBoth(n.pending, false);
  }

  lemma Appends()
    ensures N.WellFormed(Crowned()) && N.AppendEntry(Crowned(), Noop(0)) == Enthroned()
  {
    CountingOk(2);
    Crowns();
    hide N.WellFormed;
  }

  /** Node 1 with the first entry. */
  function HoldingFirst(): N.Node {
    Granting().(logs := [FIRST], disk := N.Disk(RECORD, ""))
  }

  lemma GrantingOk()
    ensures N.WellFormed(Granting()) && N.AppendOk(OFFER) && N.LastIndex(Granting()) == 0
  {
    Grants();
    assert N.WellFormed(N.TakeVote(Fresh1(), ASK).0);
    hide N.WellFormed, N.TakeVote, Fresh1;
  }

  lemma MergesFirst(logs: seq<Entry>, entries: seq<Entry>)
    requires logs == [] && entries == [FIRST]
    ensures N.Contiguous(logs, 0) && N.Contiguous(entries, 0) && N.Merge(logs, 0, 0, entries) == (entries, true)
  {
    var none := entries[..|entries| - 1];
    assert N.Merge(logs, 0, 0, none) == (logs, false);
    assert logs + [entries[0]] == entries;
    assert N.MergeOne(logs, 0, entries[0]) == (entries, true);
  }

  lemma StoresFirst()
    ensures N.WellFormed(Granting()) && N.AppendOk(OFFER)
    ensures N.TakeAppend(Granting(), OFFER) == (HoldingFirst(), AppendReply(1, true, NO_SUGGESTION, NORMAL, None))
  {
    GrantingOk();
    MergesFirst(Granting().logs, OFFER.entries);
    hide N.WellFormed, N.Merge;
    assert N.StoreEntries(Granting(), OFFER) == HoldingFirst();
  }

  lemma EnthronedOk()
    ensures N.WellFormed(Enthroned()) && N.LastIndex(Enthroned()) == 1
  {
  }

  /** One request out. */
  function HalfSent(): N.Node {
    Leading().(inFlight := map[1 := true, 2 := false],
               out := [Elected(1), Send(1, AppendEntries(OFFER))])
  }

  lemma HalfSentOk()
    ensures N.WellFormed(HalfSent()) && N.LastIndex(HalfSent()) == 1
  {
  }

  lemma OffersTo1()
    ensures N.WellFormed(Enthroned()) && N.RequestFor(Enthroned(), 1) == AppendEntries(OFFER)
  {
    EnthronedOk();
    hide N.WellFormed;
    assert OFFER.entries[0..] == OFFER.entries;
  }

  lemma OffersTo2()
    ensures N.WellFormed(HalfSent()) && N.RequestFor(HalfSent(), 2) == AppendEntries(OFFER)
  {
    HalfSentOk();
    hide N.WellFormed;
    assert OFFER.entries[0..] == OFFER.entries;
  }

  lemma SendsTo1()
    ensures N.WellFormed(Enthroned()) && N.ScheduleReplication(Enthroned(), 1) == HalfSent()
  {
    OffersTo1();
    hide N.WellFormed, N.RequestFor;
    var n := Enthroned();
    assert n.inFlight[1 := true] == HalfSent().inFlight && n.pending[1 := false] == HalfSent().pending;
    assert n.out + [Send(1, AppendEntries(OFFER))] == HalfSent().out;
  }

  lemma SendsTo2()
    ensures N.WellFormed(HalfSent()) && N.ScheduleReplication(HalfSent(), 2) == Leading()
  {
    OffersTo2();
    hide N.WellFormed, N.RequestFor;
    var n := HalfSent();
    assert n.inFlight[2 := true] == Leading().inFlight && n.pending[2 := false] == Leading().pending;
    assert n.out + [Send(2, AppendEntries(OFFER))] == Leading().out;
  }

  lemma SendsToBoth()
    ensures N.WellFormed(Enthroned()) && N.ScheduleAllReplication(Enthroned()) == Leading()
  {
    SendsTo1();
    SendsTo2();
    hide N.ScheduleReplication, N.WellFormed;
    assert N.ScheduleFirst(Enthroned(), 0) == Enthroned();
    assert N.ScheduleFirst(Enthroned(), 1) == HalfSent();
  }

  lemma BecomesLeader()
    ensures N.WellFormed(Counting(1))
    ensures N.OnVoteReply(Counting(1), 1, Some(VoteReply(1, true, NORMAL)), 0) == Leading()
  {
    CountingOk(1);
    CountingOk(2);
    Crowns();
    Appends();
    SendsToBoth();
    hide N.WellFormed, N.ScheduleAllReplication, N.TakeOffice, N.AppendEntry, Leading, Enthroned, Crowned;
    var n := Counting(1);
    assert n.(votesGranted := 2) == Counting(2);
    assert N.BecomeLeader(Counting(2), 0) == Leading();
  }

  const DONE := CommandMsg(Noop(0), 1, 1)

  /** The leader has committed its first entry; node 2 has not answered. */
  function Committing(): N.Node {
    Leading().(inFlight := map[1 := false, 2 := true],
               nextIndex := map[1 := 2, 2 := 1], matchIndex := map[1 := 1, 2 := 0],
               commitIndex := 1, lastApplied := 1, currentTermCommitted := true, applyQueue := [DONE],
               out := [Committed(FIRST), Apply(DONE)])
  }

  /** The same before the commit. */
  function Credited(): N.Node {
    Committing().(commitIndex := 0, lastApplied := 0, currentTermCommitted := false, applyQueue := [], out := [])
  }

  function Sent(): N.Node {
    Leading().(out := [])
  }

  lemma SentOk()
    ensures N.WellFormed(Sent()) && N.LastIndex(Sent()) == 1
  {
  }

  function Freed(): N.Node {
    Sent().(inFlight := map[1 := false, 2 := true])
  }

  lemma Frees()
    ensures N.WellFormed(Sent()) && N.Idle(Sent(), 1) == Freed() && N.WellFormed(Freed())
  {
    SentOk();
    hide N.WellFormed;
    assert Sent().inFlight[1 := false] == Freed().inFlight;
  }

  lemma PutFirst(m: map<Id, int>, a: int, b: int, c: int)
    requires m == map[1 := a, 2 := b]
    ensures m[1 := c] == map[1 := c, 2 := b]
  {
    var x, y := m[1 := c], map[1 := c, 2 := b];
    forall p | p in x ensures p in y && x[p] == y[p] {}
    forall p | p in y ensures p in x {}
  }

  lemma CreditedMaps()
    ensures Freed().matchIndex == map[1 := 0, 2 := 0] && Freed().matchIndex[1 := 1] == Credited().matchIndex
    ensures Freed().nextIndex[1 := 2] == Credited().nextIndex
  {
    PutFirst(Freed().matchIndex, 0, 0, 1);
    PutFirst(Freed().nextIndex, 1, 1, 2);
  }

  lemma Credits()
    ensures N.WellFormed(Freed()) && N.LastIndex(Freed()) == 1 && N.Credit(Freed(), 1, 1) == Credited()
    ensures N.WellFormed(Credited())
  {
    Frees();
    CreditedMaps();
    hide N.WellFormed;
  }

  lemma Scans()
    ensures N.WellFormed(Credited()) && N.LastIndex(Credited()) == 1 && N.CommitScan(Credited(), 1) == 1
  {
    Credits();
    hide N.WellFormed;
    var n := Credited();
    assert N.Matched(n, 1, 0) == 0;
    assert N.Matched(n, 1, 1) == 1;
    assert N.Matched(n, 1, 2) == 1;
  }

  lemma CommitsFirst()
    ensures N.WellFormed(Credited()) && N.UpdateCommit(Credited()) == Committing()
  {
    Scans();
    hide N.WellFormed, N.CommitScan;
    var n := Credited();
    assert n.logs[0..1] == [FIRST];
    assert N.CommandsOf([FIRST]) == [DONE] && N.Applies([DONE]) == [Apply(DONE)];
    assert N.CommitAt(N.Announce(n, 1), 1) == Committing();
  }

  lemma Rests()
    ensures N.WellFormed(Committing()) && N.Continue(Committing(), 1, false) == Committing()
  {
    CommitsFirst();
    hide N.WellFormed;
  }

  lemma HearsNode1()
    ensures N.WellFormed(Sent()) && N.OwnRequest(Sent(), OFFER)
    ensures N.OnAppendReply(Sent(), 1, OFFER, Some(AppendReply(1, true, NO_SUGGESTION, NORMAL, None))) == Committing()
  {
    SentOk();
    Frees();
    Credits();
    CommitsFirst();
    Rests();
    hide N.WellFormed, N.UpdateCommit, N.Credit, N.Continue, N.Idle;
    assert N.OnMatch(Freed(), 1, 1) == Committing();
  }

  /** Node 2's request failed, and the log is compacted up to the commit point. */
  function Compacted(): N.Node {
    Committing().(inFlight := map[1 := false, 2 := false], out := [], logs := [], snapIndex := 1, snapTerm := 1,
                  disk := N.Disk(N.PersistentState(1, 0, [], 1, 1), ""))
  }

  function Quiesced(): N.Node {
    Committing().(out := [])
  }

  function Alone(): N.Node {
    Quiesced().(inFlight := map[1 := false, 2 := false])
  }

  lemma QuiescedOk()
    ensures N.WellFormed(Quiesced()) && N.LastIndex(Quiesced()) == 1
  {
    Rests();
  }

  lemma Fails()
    ensures N.WellFormed(Quiesced()) && N.OwnRequest(Quiesced(), OFFER) && N.WellFormed(Alone())
    ensures N.OnAppendReply(Quiesced(), 2, OFFER, None) == Alone()
  {
    QuiescedOk();
    hide N.WellFormed;
    assert Quiesced().inFlight[2 := false] == Alone().inFlight;
    assert N.Idle(Quiesced(), 2) == Alone();
  }

  lemma Compacts()
    ensures N.WellFormed(Alone()) && Alone().commitIndex <= N.LastIndex(Alone())
    ensures N.DoSnapshot(Alone(), 1, "") == Compacted() && N.WellFormed(Compacted())
  {
    Fails();
    hide N.WellFormed;
    assert Alone().logs[1..] == [];
  }

  /** A leader that may read, with an idle peer behind its snapshot point. */
  lemma WouldTrip()
    ensures N.WellFormed(Compacted()) && N.OpensRound(Compacted()) && 2 in Compacted().peers
    ensures !Compacted().inFlight[2] && !IndexInLog(Compacted(), 2)
  {
    Compacts();
  }

  // ---------------------------------------------------------------- the run, state by state

  /** Nodes 0 and 1 of a state, and its trace. */
  predicate Looks(c: Cluster, n0: N.Node, n1: N.Node, trace: seq<Event>) {
    c.nodes.Keys == {0, 1, 2} && c.nodes[0] == n0 && c.nodes[1] == n1 && c.trace == trace
  }

  lemma LooksAfter(c: Cluster, n0: N.Node, n1: N.Node, trace: seq<Event>, i: Id, r: N.Node)
    requires Looks(c, n0, n1, trace) && (i == 0 || i == 1)
    ensures Looks(Emit(c, i, r), if i == 0 then r else n0, if i == 0 then n1 else r, trace + Events(i, r.out))
  {
    var d := Emit(c, i, r);
    assert d.nodes.Keys == c.nodes.Keys + {i} == {0, 1, 2};
  }

  const PROBES := [Event(0, Send(1, PreVote(ASK, 1))), Event(0, Send(2, PreVote(ASK, 1)))]
  const BALLOTS := [Event(0, Send(1, RequestVote(ASK))), Event(0, Send(2, RequestVote(ASK)))]
  const OFFERS :=
    [Event(0, Elected(1)), Event(0, Send(1, AppendEntries(OFFER))), Event(0, Send(2, AppendEntries(OFFER)))]
  const COMMITS := [Event(0, Committed(FIRST)), Event(0, Apply(DONE))]

  lemma Traces()
    ensures Events(0, Probing().out) == PROBES && Events(0, Standing().out) == BALLOTS
    ensures Events(0, Leading().out) == OFFERS && Events(0, Committing().out) == COMMITS
    ensures forall i, n: N.Node | n.out == [] :: Events(i, n.out) == []
  {
  }

  predicate StepsTo(c: Cluster, a: Action, d: Cluster) {
    Possible(c, a) && Safe(c, a) && Step(c, a) == d
  }

  /** Node 1 serves request k of node 0. */
  lemma Delivers(c: Cluster, n0: N.Node, n: N.Node, trace: seq<Event>, k: nat, request: Request, r: N.Node,
                 reply: Reply)
    requires Looks(c, n0, n, trace) && k < |trace| && trace[k] == Event(0, Send(1, request)) && n.out == []
    requires SafeToServe(n, request) && Serve(n, request, false) == (r, reply)
    ensures StepsTo(c, Deliver(k, false), Emit(c, 1, r).(replies := c.replies[k := reply]))
    ensures Looks(Emit(c, 1, r), n0, r, trace + Events(1, r.out))
  {
    assert Ready(c, 1) == n;
    LooksAfter(c, n0, n, trace, 1, r);
    hide N.WellFormed, Serve, Emit, SafeToServe;
  }

  /** Node 0 hears of its request k. */
  lemma Receives(c: Cluster, n: N.Node, n1: N.Node, trace: seq<Event>, k: nat, p: Id, request: Request, reply: Reply,
                 r: N.Node)
    requires Looks(c, n, n1, trace) && k < |trace| && trace[k] == Event(0, Send(p, request)) && p in {1, 2}
    requires k !in c.closed && k in c.replies && c.replies[k] == reply
    requires SafeToHear(n.(out := []), p, request, Some(reply)) && Hear(n.(out := []), p, request, Some(reply), 0) == r
    ensures StepsTo(c, Receive(k, 0), Emit(c, 0, r).(closed := c.closed + {k}))
    ensures Looks(Emit(c, 0, r), r, n1, trace + Events(0, r.out))
  {
    LooksAfter(c, n, n1, trace, 0, r);
    hide N.WellFormed, Hear, Emit, SafeToHear;
  }

  lemma Fails0(c: Cluster, n: N.Node, n1: N.Node, trace: seq<Event>, k: nat, p: Id, request: Request, r: N.Node)
    requires Looks(c, n, n1, trace) && k < |trace| && trace[k] == Event(0, Send(p, request)) && p in {1, 2}
    requires k !in c.closed
    requires SafeToHear(n.(out := []), p, request, None) && Hear(n.(out := []), p, request, None, 0) == r
    ensures StepsTo(c, Fail(k), Emit(c, 0, r).(closed := c.closed + {k}))
    ensures Looks(Emit(c, 0, r), r, n1, trace + Events(0, r.out))
  {
    LooksAfter(c, n, n1, trace, 0, r);
    hide N.WellFormed, Hear, Emit, SafeToHear;
  }

  const T3 := PROBES + BALLOTS
  const T5 := T3 + OFFERS
  const T7 := T5 + COMMITS

  lemma Positions()
    ensures PROBES[0] == Event(0, Send(1, PreVote(ASK, 1)))
    ensures |T3| == 4 && T3[2] == Event(0, Send(1, RequestVote(ASK)))
    ensures |T5| == 7 && T5[5] == Event(0, Send(1, AppendEntries(OFFER)))
    ensures |T7| == 9 && T7[6] == Event(0, Send(2, AppendEntries(OFFER)))
    ensures PROBES + [] == PROBES && T3 + [] == T3 && T5 + [] == T5 && T7 + [] == T7
  {
  }

  const YES := PreVoteAnswer(VoteReply(0, true, NORMAL))
  const VOTE := VoteAnswer(VoteReply(1, true, NORMAL))
  const STORED := AppendAnswer(AppendReply(1, true, NO_SUGGESTION, NORMAL, None))

  function C1(): Cluster { Emit(StartCluster(), 0, Probing()) }
  function C2(): Cluster { Emit(C1(), 1, Fresh1()).(replies := C1().replies[0 := YES]) }
  function C3(): Cluster { Emit(C2(), 0, Standing()).(closed := C2().closed + {0}) }
  function C4(): Cluster { Emit(C3(), 1, Granting()).(replies := C3().replies[2 := VOTE]) }
  function C5(): Cluster { Emit(C4(), 0, Leading()).(closed := C4().closed + {2}) }
  function C6(): Cluster { Emit(C5(), 1, HoldingFirst()).(replies := C5().replies[5 := STORED]) }
  function C7(): Cluster { Emit(C6(), 0, Committing()).(closed := C6().closed + {5}) }
  function C8(): Cluster { Emit(C7(), 0, Alone()).(closed := C7().closed + {6}) }
  function C9(): Cluster { Emit(C8(), 0, Compacted()) }

  lemma TimesOut(c: Cluster, n: N.Node, r: N.Node)
    requires 0 in c.nodes && Ready(c, 0) == n && N.WellFormed(n) && N.BeginPreVote(n, 0) == r
    ensures StepsTo(c, ElectionTimeout(0, 0), Emit(c, 0, r))
  {
    hide N.WellFormed, N.BeginPreVote, Emit;
  }

  lemma StartLooks()
    ensures Looks(StartCluster(), Fresh0(), Fresh1(), []) && Ready(StartCluster(), 0) == Fresh0()
  {
    assert Fresh0().out == [];
    hide Fresh0, Fresh1, Fresh2;
    assert StartCluster().nodes.Keys == {0, 1, 2};
  }

  lemma To1()
    ensures StepsTo(StartCluster(), ElectionTimeout(0, 0), C1()) && Looks(C1(), Probing(), Fresh1(), PROBES)
    ensures C1().closed == {} && C1().replies == map[]
  {
    BeginsProbing();
    Traces();
    StartLooks();
    hide N.WellFormed, N.BeginPreVote, Probing, Events, Fresh0, Fresh1, Fresh2;
    TimesOut(StartCluster(), Fresh0(), Probing());
    LooksAfter(StartCluster(), Fresh0(), Fresh1(), [], 0, Probing());
    assert [] + PROBES == PROBES;
  }

  lemma To2()
    ensures StepsTo(C1(), Deliver(0, false), C2()) && Looks(C2(), Probing(), Fresh1(), PROBES)
    ensures C2().replies == map[0 := YES] && C2().closed == {}
  {
    To1();
    Grants();
    Traces();
    Positions();
    assert Fresh1().out == [];
    assert Serve(Fresh1(), PreVote(ASK, 1), false) == (Fresh1(), YES);
    hide N.WellFormed, Probing, Events, Fresh1, Serve, C1, Looks, StepsTo;
    Delivers(C1(), Probing(), Fresh1(), PROBES, 0, PreVote(ASK, 1), Fresh1(), YES);
    LooksSame(Emit(C1(), 1, Fresh1()), C2(), Probing(), Fresh1(), PROBES);
  }

  lemma LooksSame(c: Cluster, d: Cluster, n0: N.Node, n1: N.Node, trace: seq<Event>)
    requires Looks(c, n0, n1, trace) && d == c.(closed := d.closed, replies := d.replies)
    ensures Looks(d, n0, n1, trace)
  {
  }

  lemma HearsPreVote()
    ensures var n := Probing().(out := []);
            SafeToHear(n, 1, PreVote(ASK, 1), Some(YES)) && Hear(n, 1, PreVote(ASK, 1), Some(YES), 0) == Standing()
  {
    BeginsStanding();
    hide N.WellFormed, Standing;
  }

  lemma To3()
    ensures StepsTo(C2(), Receive(0, 0), C3()) && Looks(C3(), Standing(), Fresh1(), T3)
    ensures C3().replies == map[0 := YES] && (forall x | x in C3().closed :: x <= 0)
  {
    To2();
    HearsPreVote();
    Traces();
    Positions();
    hide N.WellFormed, Probing, Standing, Events, Fresh1, Hear, SafeToHear, C2, Looks, StepsTo;
    Receives(C2(), Probing(), Fresh1(), PROBES, 0, 1, PreVote(ASK, 1), YES, Standing());
    LooksSame(Emit(C2(), 0, Standing()), C3(), Standing(), Fresh1(), T3);
  }

  lemma To4()
    ensures StepsTo(C3(), Deliver(2, false), C4()) && Looks(C4(), Standing(), Granting(), T3)
    ensures 2 in C4().replies && C4().replies[2] == VOTE && (forall x | x in C4().closed :: x <= 0)
  {
    To3();
    Grants();
    Traces();
    Positions();
    assert Fresh1().out == [] && Granting().out == [];
    hide N.WellFormed, Standing, Granting, Events, Fresh1, N.TakeVote, C3, Looks, StepsTo;
    Delivers(C3(), Standing(), Fresh1(), T3, 2, RequestVote(ASK), Granting(), VOTE);
    LooksSame(Emit(C3(), 1, Granting()), C4(), Standing(), Granting(), T3);
  }

  lemma CountingPeers(v: int)
    ensures Counting(v).peers == [1, 2] && Standing().(out := []) == Counting(1)
  {
  }

  lemma HearsVote()
    ensures var n := Counting(1);
            SafeToHear(n, 1, RequestVote(ASK), Some(VOTE)) && Hear(n, 1, RequestVote(ASK), Some(VOTE), 0) == Leading()
  {
    BecomesLeader();
    CountingPeers(1);
    hide N.WellFormed, Leading, Counting, N.OnVoteReply;
  }

  lemma To5()
    ensures StepsTo(C4(), Receive(2, 0), C5()) && Looks(C5(), Leading(), Granting(), T5)
    ensures forall x | x in C5().closed :: x <= 2
  {
    To4();
    HearsVote();
    CountingPeers(1);
    Traces();
    Positions();
    hide N.WellFormed, Standing, Counting, Leading, Granting, Events, Hear, SafeToHear, C4, Looks, StepsTo;
    Receives(C4(), Standing(), Granting(), T3, 2, 1, RequestVote(ASK), VOTE, Leading());
    LooksSame(Emit(C4(), 0, Leading()), C5(), Leading(), Granting(), T5);
  }

  lemma ServesOffer()
    ensures SafeToServe(Granting(), AppendEntries(OFFER))
    ensures Serve(Granting(), AppendEntries(OFFER), false) == (HoldingFirst(), STORED)
    ensures Granting().out == [] && HoldingFirst().out == []
  {
    StoresFirst();
    hide N.WellFormed, N.TakeAppend;
  }

  lemma To6()
    ensures StepsTo(C5(), Deliver(5, false), C6()) && Looks(C6(), Leading(), HoldingFirst(), T5)
    ensures 5 in C6().replies && C6().replies[5] == STORED && (forall x | x in C6().closed :: x <= 2)
  {
    To5();
    ServesOffer();
    Traces();
    Positions();
    hide N.WellFormed, Leading, Granting, HoldingFirst, Events, Serve, SafeToServe, C5, Looks, StepsTo;
    Delivers(C5(), Leading(), Granting(), T5, 5, AppendEntries(OFFER), HoldingFirst(), STORED);
    LooksSame(Emit(C5(), 1, HoldingFirst()), C6(), Leading(), HoldingFirst(), T5);
  }

  lemma SentPeers()
    ensures Sent().peers == [1, 2] && Sent() == Leading().(out := [])
    ensures Quiesced().peers == [1, 2] && Quiesced() == Committing().(out := [])
    ensures Alone().out == []
  {
  }

  lemma HearsStored()
    ensures var request := AppendEntries(OFFER);
            SafeToHear(Sent(), 1, request, Some(STORED)) && Hear(Sent(), 1, request, Some(STORED), 0) == Committing()
  {
    HearsNode1();
    SentPeers();
    hide N.WellFormed, Sent, Committing, N.OnAppendReply;
  }

  lemma To7()
    ensures StepsTo(C6(), Receive(5, 0), C7()) && Looks(C7(), Committing(), HoldingFirst(), T7)
    ensures forall x | x in C7().closed :: x <= 5
  {
    To6();
    HearsStored();
    Traces();
    Positions();
    SentPeers();
    hide N.WellFormed, Sent, Leading, HoldingFirst, Committing, Events, Hear, SafeToHear, C6, Looks, StepsTo;
    Receives(C6(), Leading(), HoldingFirst(), T5, 5, 1, AppendEntries(OFFER), STORED, Committing());
    LooksSame(Emit(C6(), 0, Committing()), C7(), Committing(), HoldingFirst(), T7);
  }

  lemma HearsFailure()
    ensures var request := AppendEntries(OFFER);
            SafeToHear(Quiesced(), 2, request, None) && Hear(Quiesced(), 2, request, None, 0) == Alone()
  {
    Fails();
    SentPeers();
    hide N.WellFormed, Quiesced, Alone, N.OnAppendReply;
  }

  lemma To8()
    ensures StepsTo(C7(), Fail(6), C8()) && Looks(C8(), Alone(), HoldingFirst(), T7)
    ensures forall x | x in C8().closed :: x <= 6
  {
    To7();
    HearsFailure();
    Traces();
    Positions();
    SentPeers();
    hide N.WellFormed, Quiesced, Alone, HoldingFirst, Committing, Events, Hear, SafeToHear, C7, Looks, StepsTo;
    Fails0(C7(), Committing(), HoldingFirst(), T7, 6, 2, AppendEntries(OFFER), Alone());
    LooksSame(Emit(C7(), 0, Alone()), C8(), Alone(), HoldingFirst(), T7);
  }

  lemma CompactsTo(c: Cluster, n: N.Node, n1: N.Node, trace: seq<Event>, index: int, r: N.Node)
    requires Looks(c, n, n1, trace) && N.WellFormed(n) && n.commitIndex <= N.LastIndex(n)
    requires N.WellFormed(n.(out := [])) && N.DoSnapshot(n.(out := []), index, "") == r
    ensures StepsTo(c, Compact(0, index, ""), Emit(c, 0, r))
    ensures Looks(Emit(c, 0, r), r, n1, trace + Events(0, r.out))
  {
    assert Ready(c, 0) == n.(out := []) && c.nodes[0] == n;
    LooksAfter(c, n, n1, trace, 0, r);
    hide N.WellFormed, N.DoSnapshot, Emit;
  }

  lemma To9()
    ensures StepsTo(C8(), Compact(0, 1, ""), C9()) && Looks(C9(), Compacted(), HoldingFirst(), T7)
    ensures forall x | x in C9().closed :: x <= 6
  {
    To8();
    Compacts();
    Positions();
    Traces();
    assert Alone().out == [] && Compacted().out == [];
    hide N.WellFormed, Alone, Compacted, HoldingFirst, Events, N.DoSnapshot, C8, StepsTo;
    assert Alone().(out := []) == Alone();
    CompactsTo(C8(), Alone(), HoldingFirst(), T7, 1, Compacted());
  }

  lemma RunGoesOn(s: seq<Cluster>, actions: seq<Action>, a: Action, d: Cluster)
    requires Run(s, actions) && StepsTo(s[|actions|], a, d)
    ensures Run(s + [d], actions + [a]) && (s + [d])[|actions + [a]|] == d
  {
    hide Initial, Possible, Safe, Step;
    forall k | 0 <= k < |actions + [a]| ensures Next((s + [d])[k], (actions + [a])[k], (s + [d])[k + 1]) {
      if k < |actions| { assert Next(s[k], actions[k], s[k + 1]); }
    }
  }

  lemma RunTo8() returns (s: seq<Cluster>, actions: seq<Action>)
    ensures Run(s, actions) && s[|actions|] == C8()
  {
    StartInitial();
    To1();
    To2();
    To3();
    To4();
    To5();
    To6();
    To7();
    To8();
    hide Initial, Possible, Safe, Step, Looks, StartCluster, C1, C2, C3, C4, C5, C6, C7, C8;
    s := [StartCluster(), C1(), C2(), C3(), C4(), C5(), C6(), C7(), C8()];
    actions := [ElectionTimeout(0, 0), Deliver(0, false), Receive(0, 0), Deliver(2, false), Receive(2, 0),
                Deliver(5, false), Receive(5, 0), Fail(6)];
    forall k | 0 <= k < |actions| ensures StepsTo(s[k], actions[k], s[k + 1]) {}
  }

  lemma RunTo9() returns (s: seq<Cluster>, actions: seq<Action>)
    ensures Run(s, actions) && s[|actions|] == C9()
  {
    s, actions := RunTo8();
    To9();
    hide Run, StepsTo, C8, C9;
    RunGoesOn(s, actions, Compact(0, 1, ""), C9());
    s, actions := s + [C9()], actions + [Compact(0, 1, "")];
  }

  lemma EmitKeeps(c: Cluster, i: Id, r: N.Node)
    requires c.nodes.Keys == {0, 1, 2} && i in {0, 1, 2}
    ensures var d := Emit(c, i, r);
            && d.nodes.Keys == {0, 1, 2} && d.trace == c.trace + Events(i, r.out)
            && forall j | j in {0, 1, 2} :: d.nodes[j] == if j == i then r else c.nodes[j]
  {
    assert Emit(c, i, r).nodes.Keys == c.nodes.Keys + {i};
  }

  /** Node 2 has had nothing to do so far. */
  lemma Untouched()
    ensures 2 in C8().nodes && C8().nodes[2] == Fresh2() && 2 in C9().nodes && C9().nodes[2] == Fresh2()
  {
    hide Fresh0, Fresh1, Fresh2, Probing, Standing, Granting, Leading, HoldingFirst, Committing, Alone, Compacted,
         Events;
  }

  /** A run that ends with a leader whose next read trips the assertion. */
  lemma ReadCanTrip() returns (s: seq<Cluster>, actions: seq<Action>)
    ensures Run(s, actions) && 0 in s[|actions|].nodes
    ensures var n := s[|actions|].nodes[0];
            N.WellFormed(n) && N.OpensRound(n) && 2 in n.peers && !n.inFlight[2] && !IndexInLog(n, 2)
  {
    s, actions := RunTo9();
    To9();
    WouldTrip();
    hide Run, C9, Compacted;
  }
}
