/** Raft's guarantees carried over to the replicated key-value service. */
module Service {
  import opened Types
  import C = Cluster
  import P = Pending
  import Safety
  import S = StateMachine

  /**
   * Replica agreement: replicas that have had no snapshot message and have consumed k commands have the same
   * contents and the same deduplication table, whichever nodes they belong to and whenever they got there.
   */
  lemma ReplicasAgree(s: seq<C.Cluster>, actions: seq<C.Action>, a: nat, b: nat, i: Id, j: Id, k: nat)
    requires C.Run(s, actions) && a < |s| && b < |s| && i in s[a].nodes && j in s[b].nodes
    requires Safety.FromTheStart(s[a].nodes[i]) && Safety.FromTheStart(s[b].nodes[j])
    requires k <= |s[a].nodes[i].applyQueue| && k <= |s[b].nodes[j].applyQueue|
    ensures var q, r := s[a].nodes[i].applyQueue, s[b].nodes[j].applyQueue;
            S.ApplyAll(S.EMPTY, P.Commands(q[..k])) == S.ApplyAll(S.EMPTY, P.Commands(r[..k]))
  {
    hide C.Run;
    Safety.ReplicaQueuesAgree(s, actions, a, b, i, j);
    var q, r := s[a].nodes[i].applyQueue, s[b].nodes[j].applyQueue;
    assert q[..k] == r[..k];
  }

  /**
   * The desk of node i: at says where in the trace each call got its entry from Start, every call at a place of its
   * own, and the node pushed all that the desk took.
   */
  ghost predicate DeskOf(d: P.Desk, at: map<nat, nat>, trace: seq<C.Event>, i: Id) {
    && (forall id | id in d.calls && d.calls[id].started.Some? ::
          && id in at && at[id] < |trace| && trace[at[id]] == C.Event(i, Started(d.calls[id].started.value))
          && d.calls[id].started.value.command == d.calls[id].op)
    && (forall id, id' | id in at && id' in at && id != id' :: at[id] != at[id'])
    && (forall t | t in d.applied :: C.Event(i, Apply(t.msg)) in trace)
  }

  /**
   * An answered write really committed: the command that was applied for the answer is the caller's own, the answer
   * is its result there, and no node ever applies anything else at that place in the log.
   */
  lemma AnsweredWriteCommitted(s: seq<C.Cluster>, actions: seq<C.Action>, k: nat,
                               desks: seq<P.Desk>, deskActions: seq<P.Action>, m: nat,
                               at: map<nat, nat>, i: Id, id: nat)
    returns (q: nat)
    requires C.Run(s, actions) && k < |s| && P.Run(desks, deskActions) && m < |desks|
    requires DeskOf(desks[m], at, s[k].trace, i)
    requires id in desks[m].completions && desks[m].completions[id].answers != []
    ensures P.Earned(desks[m], id, q, desks[m].completions[id].answers[0])
    ensures desks[m].applied[q].msg.command == desks[m].calls[id].op
    ensures forall p | 0 <= p < |s[k].trace| && s[k].trace[p].output.Apply? ::
              var msg := s[k].trace[p].output.msg;
              msg.CommandMsg? && msg.index == desks[m].applied[q].msg.index ==> msg.command == desks[m].calls[id].op
  {
    hide C.Run, P.Run;
    q := P.AnswerIsEarned(desks, deskActions, m, id);
    var d, trace := desks[m], s[k].trace;
    assert d.applied[q] in d.applied;
    var e, msg := d.calls[id].started.value, d.applied[q].msg;
    var x := at[id];
    var y :| 0 <= y < |trace| && trace[y] == C.Event(i, Apply(msg));
    Safety.StartedIsApplied(s, actions, k, x, e, y);
    forall p | 0 <= p < |trace| && trace[p].output.Apply?
      ensures var other := trace[p].output.msg;
              other.CommandMsg? && other.index == msg.index ==> other.command == d.calls[id].op
    {
      if trace[p].output.msg.index == msg.index {
        Safety.StateMachineSafety(s, actions, k, p, y);
      }
    }
  }

  /** Two calls, at the desks of any nodes, never have the same place in the log. */
  lemma OwnPlace(s: seq<C.Cluster>, actions: seq<C.Action>, k: nat, d: P.Desk, at: map<nat, nat>, i: Id, id: nat,
                 e: P.Desk, at': map<nat, nat>, j: Id, id': nat)
    requires C.Run(s, actions) && k < |s| && DeskOf(d, at, s[k].trace, i) && DeskOf(e, at', s[k].trace, j)
    requires i == j ==> d == e && at == at' && id != id'
    requires id in d.calls && d.calls[id].started.Some? && id' in e.calls && e.calls[id'].started.Some?
    ensures var x, y := d.calls[id].started.value, e.calls[id'].started.value; x.index != y.index || x.term != y.term
  {
    hide C.Run;
    var x, y := d.calls[id].started.value, e.calls[id'].started.value;
    assert at[id] != at'[id'];
    if x.index == y.index && x.term == y.term {
      Safety.StartedOnce(s, actions, k, at[id], x, at'[id'], y);
    }
  }

  /** So of all calls that wait in the tables of all nodes, at most one can be answered by a given entry. */
  lemma OneWaiter(s: seq<C.Cluster>, actions: seq<C.Action>, k: nat,
                  desks: seq<P.Desk>, deskActions: seq<P.Action>, at: map<nat, nat>, i: Id, key: P.Key,
                  desks': seq<P.Desk>, deskActions': seq<P.Action>, at': map<nat, nat>, j: Id, key': P.Key)
    requires C.Run(s, actions) && k < |s| && P.Run(desks, deskActions) && P.Run(desks', deskActions')
    requires DeskOf(desks[|deskActions|], at, s[k].trace, i) && DeskOf(desks'[|deskActions'|], at', s[k].trace, j)
    requires i == j ==> desks == desks' && deskActions == deskActions' && at == at' && key != key'
    requires key in desks[|deskActions|].pending && key' in desks'[|deskActions'|].pending
    ensures var p, p' := desks[|deskActions|].pending[key], desks'[|deskActions'|].pending[key'];
            p.logIndex != p'.logIndex || p.logTerm != p'.logTerm
  {
    var d, e := desks[|deskActions|], desks'[|deskActions'|];
    hide C.Run, P.Run, DeskOf;
    P.WaitingCall(desks, deskActions, |deskActions|, key);
    P.WaitingCall(desks', deskActions', |deskActions'|, key');
    OwnPlace(s, actions, k, d, at, i, d.pending[key].completion, e, at', j, e.pending[key'].completion);
  }
}
