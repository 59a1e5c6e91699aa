/** The server's objects: completions, the table of waiting RPCs, and the loop of the apply thread. */
module KvServer {
  import opened Types
  import opened Pending
  import S = StateMachine

  class RpcCompletion {
    var done: bool
    var cancelled: bool
    var attached: bool
    var answers: seq<string>

    function State(): Completion
      reads this
    {
      Completion(done, cancelled, attached, answers)
    }

    constructor ()
      ensures State() == NEW_COMPLETION
    {
      done, cancelled, attached, answers := false, false, true, [];
    }

    method Finish(err: string)
      modifies this
      ensures State() == FinishOn(old(State()), err)
      ensures old(done || cancelled || !attached) ==> State() == old(State())
      ensures !old(done || cancelled || !attached) ==>
                done && answers == old(answers) + [err] && attached && !cancelled
    {
      if done || cancelled || !attached {
        return;
      }
      done := true;
      answers := answers + [err];
    }

    method Cancel()
      modifies this
      ensures State() == CancelOn(old(State()))
      ensures cancelled && !attached && done == old(done) && answers == old(answers)
    {
      cancelled, attached := true, false;
    }
  }

  type Table = map<Key, PendingRequest<RpcCompletion>>

  ghost function Waiting(pending: Table): set<RpcCompletion> {
    set key | key in pending :: pending[key].completion
  }

  class KVServer {
    const stateMachine: S.KVStateMachine
    var pendingRequests: Table

    constructor (maxLevel: nat)
      ensures stateMachine.Valid() && stateMachine.View() == S.EMPTY && pendingRequests == map[]
    {
      stateMachine := new S.KVStateMachine(maxLevel);
      pendingRequests := map[];
    }

    method RegisterPending(index: int, term: int, clientId: string, requestId: int, completion: RpcCompletion)
      modifies this`pendingRequests
      ensures pendingRequests ==
              Register(old(pendingRequests), Key(clientId, requestId), PendingRequest(index, term, completion))
      ensures Key(clientId, requestId) in old(pendingRequests) ==> pendingRequests == old(pendingRequests)
      ensures Key(clientId, requestId) !in old(pendingRequests) ==>
                pendingRequests ==
                old(pendingRequests)[Key(clientId, requestId) := PendingRequest(index, term, completion)]
    {
      var key := Key(clientId, requestId);
      if key !in pendingRequests {
        pendingRequests := pendingRequests[key := PendingRequest(index, term, completion)];
      }
    }

    /** The locked section of completePending. */
    method TakePending(key: Key, index: int, term: int) returns (taken: Option<RpcCompletion>)
      modifies this`pendingRequests
      ensures (pendingRequests, taken) == Take(old(pendingRequests), key, index, term)
      ensures key.clientId == "" || key.requestId == 0 || key !in old(pendingRequests) ==>
                pendingRequests == old(pendingRequests) && taken == None
      ensures key.clientId != "" && key.requestId != 0 && key in old(pendingRequests) ==>
                && pendingRequests == old(pendingRequests) - {key}
                && var waiting := old(pendingRequests)[key];
                   taken == if index == waiting.logIndex && term == waiting.logTerm then Some(waiting.completion)
                            else None
    {
      taken := None;
      if key.clientId == "" || key.requestId == 0 || key !in pendingRequests {
        return;
      }
      var pending := pendingRequests[key];
      pendingRequests := pendingRequests - {key};
      if index == pending.logIndex && term == pending.logTerm {
        taken := Some(pending.completion);
      }
    }

    /** Only the completion that waited for this entry is finished, and only with this result. */
    method CompletePending(index: int, term: int, result: S.ApplyResult)
      modifies this`pendingRequests, Waiting(pendingRequests)
      ensures var (pending, taken) := Take(old(pendingRequests), Key(result.clientId, result.requestId), index, term);
              && pendingRequests == pending
              && (taken.Some? ==> taken.value.State() == FinishOn(old(taken.value.State()), result.replyMsg))
              && (forall c | c in Waiting(old(pendingRequests)) && taken != Some(c) :: c.State() == old(c.State()))
    {
      var taken := TakePending(Key(result.clientId, result.requestId), index, term);
      if taken.Some? {
        taken.value.Finish(result.replyMsg);
      }
    }

    method CancelPending(key: Key, completion: RpcCompletion)
      modifies this`pendingRequests, completion
      ensures pendingRequests == Drop(old(pendingRequests), key, completion)
      ensures completion.State() == CancelOn(old(completion.State()))
      ensures pendingRequests ==
              if key in old(pendingRequests) && old(pendingRequests)[key].completion == completion
              then old(pendingRequests) - {key} else old(pendingRequests)
    {
      if key in pendingRequests && pendingRequests[key].completion == completion {
        pendingRequests := pendingRequests - {key};
      }
      completion.Cancel();
    }

    /** The state machine shares no object with the server or the RPCs that wait. */
    ghost predicate Separate()
      reads this, stateMachine, stateMachine.kv
    {
      this !in stateMachine.kv.Repr && forall c | c in Waiting(pendingRequests) :: c !in stateMachine.kv.Repr
    }

    /** One turn of the apply loop: apply the command, then answer whoever waits for it. */
    method ApplyNext(msg: ApplyMsg, tosses: nat) returns (result: S.ApplyResult)
      requires stateMachine.Valid() && Separate() && msg.CommandMsg?
      modifies this`pendingRequests, Waiting(pendingRequests), stateMachine, stateMachine.kv, stateMachine.kv.Repr
      ensures stateMachine.Valid() && Separate() && fresh(stateMachine.kv.Repr - old(stateMachine.kv.Repr))
      ensures Waiting(pendingRequests) <= Waiting(old(pendingRequests))
      ensures (stateMachine.View(), result) == S.ApplyOp(old(stateMachine.View()), msg.command)
      ensures var (pending, taken) := Take(old(pendingRequests), KeyOf(msg.command), msg.index, msg.term);
              && pendingRequests == pending
              && (taken.Some? ==> taken.value.State() == FinishOn(old(taken.value.State()), result.replyMsg))
              && (forall c | c in Waiting(old(pendingRequests)) && taken != Some(c) :: c.State() == old(c.State()))
    {
      hide S.ApplyOp, Take, FinishOn, S.KVStateMachine.Valid;
      Identifies(stateMachine.View(), msg.command);
      result := stateMachine.Apply(msg.command, tosses);
      assert pendingRequests == old(pendingRequests);
      assert forall c | c in Waiting(pendingRequests) :: c.State() == old(c.State());
      TakesWaiting(pendingRequests, KeyOf(msg.command), msg.index, msg.term);
      CompletePending(msg.index, msg.term, result);
    }

    /** The loop of the apply thread over a queue of commands; tosses decide tower heights in the skip list. */
    method DrainCommands(queue: seq<ApplyMsg>, tosses: seq<nat>)
      requires stateMachine.Valid() && Separate() && |tosses| == |queue| && forall m | m in queue :: m.CommandMsg?
      modifies this`pendingRequests, Waiting(pendingRequests), stateMachine, stateMachine.kv, stateMachine.kv.Repr
      ensures stateMachine.Valid() && Separate() && fresh(stateMachine.kv.Repr - old(stateMachine.kv.Repr))
      ensures stateMachine.View() == S.ApplyAll(old(stateMachine.View()), Commands(queue))
    {
      hide S.ApplyOp, S.ApplyAll, Commands, Take, S.KVStateMachine.Valid;
      EmptyQueue(stateMachine.View(), queue);
      var k := 0;
      while k < |queue|
        invariant k <= |queue| && stateMachine.Valid() && Separate()
        invariant fresh(stateMachine.kv.Repr - old(stateMachine.kv.Repr))
        invariant Waiting(pendingRequests) <= Waiting(old(pendingRequests))
        invariant stateMachine.View() == S.ApplyAll(old(stateMachine.View()), Commands(queue[..k]))
      {
        var msg := queue[k];
        assert msg in queue;
        CommandsNext(old(stateMachine.View()), queue, k);
        var result := ApplyNext(msg, tosses[k]);
        k := k + 1;
      }
      assert queue[..k] == queue;
    }
  }

  lemma TakesWaiting(pending: Table, key: Key, index: int, term: int)
    ensures var (rest, taken) := Take(pending, key, index, term);
            Waiting(rest) <= Waiting(pending) && (taken.Some? ==> taken.value in Waiting(pending))
  {
  }

  /** A result names the request it answers. */
  lemma Identifies(s: S.State, op: Op)
    ensures var r := S.ApplyOp(s, op).1; Key(r.clientId, r.requestId) == KeyOf(op)
  {
  }

  lemma EmptyQueue(s: S.State, queue: seq<ApplyMsg>)
    ensures S.ApplyAll(s, Commands(queue[..0])) == s
  {
  }

  lemma CommandsNext(s: S.State, queue: seq<ApplyMsg>, k: nat)
    requires k < |queue| && queue[k].CommandMsg?
    ensures S.ApplyAll(s, Commands(queue[..k + 1])) ==
            S.ApplyOp(S.ApplyAll(s, Commands(queue[..k])), queue[k].command).0
  {
    assert queue[..k + 1][..k] == queue[..k];
    var all := Commands(queue[..k]) + [queue[k].command];
    assert all[..|all| - 1] == Commands(queue[..k]);
  }
}
