/** A run that leaves replication to one peer stuck: lost answers, and a peer that compacts before its leader does. */
module StuckReplication {
  import opened Types
  import opened Cluster
  import B = Backtracking
  import N = Node
  import RA = ReadAssertion

  // The run of ReadAssertion up to the failed request to node 2 goes on: node 2 gets the heartbeat with the leader's
  // first entry, which is committed, and compacts it; its answer is lost, so the leader still tries index 1.

  const BEAT1 := AppendArgs(1, 0, 1, 1, [], 1, None)
  const BEAT2 := AppendArgs(1, 0, 0, 0, [RA.FIRST], 1, None)

  /** Node 0 with its first entry committed and still to be sent to node 2. */
  predicate Leads1(n: N.Node) {
    && N.WellFormed(n) && n.status == Leader && n.currentTerm == 1 && n.id == 0 && n.peers == [1, 2]
    && n.snapIndex == 0 && n.snapTerm == 0 && n.logs == [RA.FIRST] && n.commitIndex == 1
    && 1 in n.peers && 2 in n.peers && n.nextIndex[1] == 2 && n.nextIndex[2] == 1
  }

  lemma AloneLeads()
    ensures var n := RA.Alone();
            Leads1(n) && n.inFlight == map[1 := false, 2 := false] && n.out == []
  {
    RA.Fails();
  }

  lemma Sends1(n: N.Node)
    requires Leads1(n) && !n.inFlight[1]
    ensures var r := N.ScheduleReplication(n, 1);
            Leads1(r) && r.inFlight == n.inFlight[1 := true] && r.out == n.out + [Send(1, AppendEntries(BEAT1))]
  {
    N.LastIndexIs(n);
    assert n.logs[1..] == [];
    assert N.BuildAppend(n, 1) == BEAT1;
    hide N.BuildAppend;
  }

  lemma Sends2(n: N.Node)
    requires Leads1(n) && !n.inFlight[2]
    ensures var r := N.ScheduleReplication(n, 2); Leads1(r) && r.out == n.out + [Send(2, AppendEntries(BEAT2))]
  {
    N.LastIndexIs(n);
    assert n.logs[0..] == [RA.FIRST];
    assert N.BuildAppend(n, 2) == BEAT2;
    hide N.BuildAppend;
  }

  lemma Beats(n: N.Node)
    requires Leads1(n) && !n.inFlight[1] && !n.inFlight[2] && n.out == []
    ensures var r := N.ScheduleAllReplication(n);
            Leads1(r) && r.out == [Send(1, AppendEntries(BEAT1)), Send(2, AppendEntries(BEAT2))]
  {
    Sends1(n);
    var n1 := N.ScheduleReplication(n, 1);
    Sends2(n1);
    hide N.ScheduleReplication;
    assert N.ScheduleFirst(n, 0) == n;
    assert N.ScheduleFirst(n, 1) == n1;
    assert N.ScheduleFirst(n, 2) == N.ScheduleReplication(n1, 2);
  }

  /** Node 2 with the first entry, committed. */
  predicate Holds1(n: N.Node) {
    && N.WellFormed(n) && n.currentTerm == 1 && n.status == Follower && n.snapIndex == 0 && n.snapTerm == 0
    && n.logs == [RA.FIRST] && n.commitIndex == 1
  }

  /** A follower of term 1 with nothing in its log. */
  predicate Empty1(n: N.Node) {
    && N.WellFormed(n) && n.currentTerm == 1 && n.status == Follower && n.snapIndex == 0 && n.snapTerm == 0
    && n.logs == [] && n.commitIndex == 0
  }

  lemma SeesTerm()
    ensures N.WellFormed(RA.Fresh2()) && Empty1(N.SeeTerm(RA.Fresh2(), 1))
  {
    assert N.WellFormed(RA.Fresh2());
  }

  lemma FollowsBeat(n: N.Node)
    requires Empty1(n)
    ensures N.AppendOk(BEAT2) && Holds1(N.FollowAppend(n, BEAT2).0)
  {
    RA.MergesFirst(n.logs, BEAT2.entries);
    var m := N.StoreEntries(n, BEAT2);
    assert m.logs == [RA.FIRST] && N.LastIndex(m) == 1;
    hide N.StoreEntries;
  }

  lemma TakesBeat()
    ensures N.WellFormed(RA.Fresh2()) && N.AppendOk(BEAT2) && RA.Fresh2().out == []
    ensures Holds1(N.TakeAppend(RA.Fresh2(), BEAT2).0)
  {
    SeesTerm();
    var n := N.SeeTerm(RA.Fresh2(), 1);
    assert n.(status := Follower) == n;
    FollowsBeat(n);
    assert RA.Fresh2().out == [];
    hide N.FollowAppend, N.SeeTerm, RA.Fresh2, N.WellFormed;
  }

  lemma MissesAnswer(n: N.Node)
    requires Leads1(n)
    ensures N.OwnRequest(n, BEAT2) && Leads1(N.OnAppendReply(n, 2, BEAT2, None))
  {
    N.LastIndexIs(n);
  }

  /** Node 2 with the first entry compacted. */
  predicate HasCompacted(n: N.Node) {
    N.WellFormed(n) && n.currentTerm == 1 && n.snapIndex == 1 && n.snapTerm == 1
  }

  lemma CompactsFirst(n: N.Node)
    requires Holds1(n)
    ensures n.commitIndex <= N.LastIndex(n) && HasCompacted(N.DoSnapshot(n, 1, ""))
  {
  }

  // ---------------------------------------------------------------- the run, step by step

  predicate BeatSent(c: Cluster) {
    c.nodes.Keys == {0, 1, 2} && |c.trace| > 10 && c.trace[10] == Event(0, Send(2, AppendEntries(BEAT2)))
  }

  lemma BeatKept(c: Cluster, i: Id, r: N.Node)
    requires BeatSent(c) && i in {0, 1, 2}
    ensures BeatSent(Emit(c, i, r))
    ensures forall j | j in {0, 1, 2} :: Emit(c, i, r).nodes[j] == if j == i then r else c.nodes[j]
  {
    RA.EmitKeeps(c, i, r);
  }

  lemma RequestIn(trace: seq<Event>, out: seq<Output>)
    requires |trace| == 9 && out == [Send(1, AppendEntries(BEAT1)), Send(2, AppendEntries(BEAT2))]
    ensures var t := trace + Events(0, out); |t| > 10 && t[10] == Event(0, Send(2, AppendEntries(BEAT2)))
  {
    assert (trace + Events(0, out))[10] == Events(0, out)[1];
  }

  lemma BeatsTo(b: Cluster, n: N.Node, r: N.Node)
    requires 0 in b.nodes && b.nodes[0] == n && n.out == [] && n.status == Leader && N.WellFormed(n)
    requires N.ScheduleAllReplication(n) == r
    ensures RA.StepsTo(b, HeartBeatTimeout(0), Emit(b, 0, r))
  {
    assert Ready(b, 0) == n;
    hide N.WellFormed, N.ScheduleAllReplication, Emit;
  }

  lemma ToBeat() returns (c: Cluster)
    ensures RA.StepsTo(RA.C8(), HeartBeatTimeout(0), c) && BeatSent(c) && Leads1(c.nodes[0])
    ensures c.nodes[2] == RA.Fresh2() && 10 !in c.closed
  {
    RA.To8();
    RA.Untouched();
    AloneLeads();
    Beats(RA.Alone());
    RA.Positions();
    var b, n := RA.C8(), RA.Alone();
    hide N.WellFormed, N.ScheduleAllReplication, RA.Alone, RA.C8, RA.HoldingFirst, RA.Fresh2, RA.StepsTo;
    var r := N.ScheduleAllReplication(n);
    BeatsTo(b, n, r);
    RA.EmitKeeps(b, 0, r);
    RequestIn(b.trace, r.out);
    hide Emit, Events;
    c := Emit(b, 0, r);
  }

  lemma ServesBeat()
    ensures SafeToServe(RA.Fresh2(), AppendEntries(BEAT2)) && RA.Fresh2().out == []
    ensures Holds1(Serve(RA.Fresh2(), AppendEntries(BEAT2), false).0)
  {
    TakesBeat();
    hide N.WellFormed, N.TakeAppend, RA.Fresh2, N.AppendOk, Holds1;
  }

  lemma ToHeld(b: Cluster) returns (c: Cluster)
    requires BeatSent(b) && b.nodes[2] == RA.Fresh2()
    ensures RA.StepsTo(b, Deliver(10, false), c) && BeatSent(c) && Holds1(c.nodes[2])
    ensures c.nodes[0] == b.nodes[0] && c.closed == b.closed
  {
    ServesBeat();
    assert Ready(b, 2) == RA.Fresh2();
    var (r, reply) := Serve(RA.Fresh2(), AppendEntries(BEAT2), false);
    BeatKept(b, 2, r);
    hide N.WellFormed, Serve, SafeToServe, RA.Fresh2, Emit, Holds1;
    c := Emit(b, 2, r).(replies := b.replies[10 := reply]);
  }

  lemma ToMissed(b: Cluster) returns (c: Cluster)
    requires BeatSent(b) && Leads1(b.nodes[0]) && 10 !in b.closed
    ensures RA.StepsTo(b, Fail(10), c) && BeatSent(c) && Leads1(c.nodes[0]) && c.nodes[2] == b.nodes[2]
  {
    var n := Ready(b, 0);
    assert Leads1(n);
    MissesAnswer(n);
    var r := N.OnAppendReply(n, 2, BEAT2, None);
    BeatKept(b, 0, r);
    hide N.OnAppendReply, Emit, N.OwnRequest;
    c := Emit(b, 0, r).(closed := b.closed + {10});
    assert Hear(n, 2, AppendEntries(BEAT2), None, 0) == r;
  }

  lemma ToFollowerCompacted(b: Cluster) returns (c: Cluster)
    requires BeatSent(b) && Holds1(b.nodes[2])
    ensures RA.StepsTo(b, Compact(2, 1, ""), c) && BeatSent(c) && HasCompacted(c.nodes[2]) && c.nodes[0] == b.nodes[0]
  {
    var n := Ready(b, 2);
    assert Holds1(n);
    CompactsFirst(n);
    CompactsFirst(b.nodes[2]);
    var r := N.DoSnapshot(n, 1, "");
    BeatKept(b, 2, r);
    hide N.DoSnapshot, Emit;
    c := Emit(b, 2, r);
  }

  /** The leader tries index 1, the follower has compacted it, and nothing they exchange changes that. */
  lemma Stuck(n: N.Node, f: N.Node)
    requires Leads1(n) && HasCompacted(f)
    ensures B.Proper(n, 2, B.Exchange(n.nextIndex[2], f))
    ensures forall k: nat :: !B.Joined(n, 2, B.Attempts(n, 2, B.Exchange(n.nextIndex[2], f), k))
    ensures forall k: nat :: !B.Ends(n, f, B.Tries(n, 2, f, n.nextIndex[2], k))
  {
    N.LastIndexIs(n);
    assert B.SnapshotAgrees(n, f);
    B.EndsIff(n, 2, f, 1);
    B.JoinsIff(n, 2, B.Exchange(1, f));
    hide B.Joined, B.Attempts, B.Ends, B.Tries;
  }

  /** A run that ends in such a state. */
  lemma CanGetStuck() returns (s: seq<Cluster>, actions: seq<Action>)
    ensures Run(s, actions) && 0 in s[|actions|].nodes && 2 in s[|actions|].nodes
    ensures var n, f := s[|actions|].nodes[0], s[|actions|].nodes[2];
            && n.status == Leader && n.currentTerm == f.currentTerm && 2 in n.nextIndex
            && B.Proper(n, 2, B.Exchange(n.nextIndex[2], f))
            && (forall k: nat :: !B.Joined(n, 2, B.Attempts(n, 2, B.Exchange(n.nextIndex[2], f), k)))
            && (forall k: nat :: !B.Ends(n, f, B.Tries(n, 2, f, n.nextIndex[2], k)))
  {
    s, actions := RA.RunTo8();
    var c1 := ToBeat();
    var c2 := ToHeld(c1);
    var c3 := ToMissed(c2);
    var c4 := ToFollowerCompacted(c3);
    Stuck(c4.nodes[0], c4.nodes[2]);
    hide Run, RA.C8, RA.StepsTo, B.Joined, B.Attempts, B.Ends, B.Tries, B.Proper;
    RA.RunGoesOn(s, actions, HeartBeatTimeout(0), c1);
    s, actions := s + [c1], actions + [HeartBeatTimeout(0)];
    RA.RunGoesOn(s, actions, Deliver(10, false), c2);
    s, actions := s + [c2], actions + [Deliver(10, false)];
    RA.RunGoesOn(s, actions, Fail(10), c3);
    s, actions := s + [c3], actions + [Fail(10)];
    RA.RunGoesOn(s, actions, Compact(2, 1, ""), c4);
    s, actions := s + [c4], actions + [Compact(2, 1, "")];
  }
}
