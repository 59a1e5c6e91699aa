/**
 * Answering clients: an RPC waits in a table under its client and request id until the entry its own start call
 * appended is applied.  Register, apply, finish and cancel run on different threads, so each locked section is one
 * step and they interleave freely.
 */
module Pending {
  import opened Types
  import S = StateMachine

  datatype Key = Key(clientId: string, requestId: int)

  function KeyOf(op: Op): Key {
    Key(op.clientId, op.requestId)
  }

  /** The handle that server and reactor share; attached while its reactor and reply pointers are set. */
  datatype Completion = Completion(done: bool, cancelled: bool, attached: bool, answers: seq<string>)

  const NEW_COMPLETION := Completion(false, false, true, [])

  function FinishOn(c: Completion, err: string): Completion {
    if c.done || c.cancelled || !c.attached then c else c.(done := true, answers := c.answers + [err])
  }

  function CancelOn(c: Completion): Completion {
    c.(cancelled := true, attached := false)
  }

  datatype PendingRequest<C> = PendingRequest(logIndex: int, logTerm: int, completion: C)

  // ---------------------------------------------------------------- the locked sections on the table

  function Register<C>(pending: map<Key, PendingRequest<C>>, key: Key, p: PendingRequest<C>)
    : map<Key, PendingRequest<C>>
  {
    if key in pending then pending else pending[key := p]
  }

  /** completePending up to its unlock: the completion to finish, if the applied entry is the one awaited. */
  function Take<C>(pending: map<Key, PendingRequest<C>>, key: Key, index: int, term: int)
    : (map<Key, PendingRequest<C>>, Option<C>)
  {
    if key.clientId == "" || key.requestId == 0 || key !in pending then (pending, None)
    else if index != pending[key].logIndex || term != pending[key].logTerm then (pending - {key}, None)
    else (pending - {key}, Some(pending[key].completion))
  }

  function Drop<C(==)>(pending: map<Key, PendingRequest<C>>, key: Key, completion: C): map<Key, PendingRequest<C>> {
    if key in pending && pending[key].completion == completion then pending - {key} else pending
  }

  // ---------------------------------------------------------------- calls in flight

  /** Where a call stands: the op it carries, what Start returned for it, and whether it was refused or registered. */
  datatype Call = Call(op: Op, started: Option<Entry>, refused: bool, registered: bool)

  /**
   * One turn of the apply thread: a command executed, or a snapshot restored.  What a restore makes of the store and
   * the table is left open.
   */
  datatype Turn = Executed(msg: ApplyMsg) | Restored(msg: ApplyMsg, state: S.State)

  /** The state machine after these turns. */
  function Replay(turns: seq<Turn>): S.State {
    if turns == [] then S.EMPTY
    else
      match turns[|turns| - 1]
      case Executed(msg) =>
        if msg.CommandMsg? then S.ApplyOp(Replay(turns[..|turns| - 1]), msg.command).0 else Replay(turns[..|turns| - 1])
      case Restored(_, state) => state
  }

  /** A completion the apply thread has taken out of the table and is about to finish. */
  datatype Taken = Taken(id: nat, reply: string)

  datatype Desk = Desk(
    calls: map<nat, Call>,
    completions: map<nat, Completion>,
    pending: map<Key, PendingRequest<nat>>,
    taken: Option<Taken>,
    machine: S.State,
    applied: seq<Turn>)

  const OPENING := Desk(map[], map[], map[], None, S.EMPTY, [])

  datatype Action =
    | Arrive(id: nat, op: Op)
    | Accepted(id: nat, entry: Entry)
    | Refused(id: nat)
    | Registered(id: nat)
    | Applied(msg: ApplyMsg)
    | Restore(msg: ApplyMsg, state: S.State)
    | Finish
    | Dropped(id: nat)
    | Cancelled(id: nat)

  predicate Possible(d: Desk, a: Action) {
    match a
    case Arrive(id, _) => id !in d.calls && id !in d.completions
    case Accepted(id, _) => id in d.calls && d.calls[id].started.None? && !d.calls[id].refused
    case Refused(id) => id in d.calls && d.calls[id].started.None? && !d.calls[id].refused
    case Registered(id) => id in d.calls && d.calls[id].started.Some? && !d.calls[id].registered
    case Applied(msg) => d.taken.None? && msg.CommandMsg?
    case Restore(msg, _) => d.taken.None? && msg.SnapshotMsg?
    case Finish => d.taken.Some? && d.taken.value.id in d.completions
    case Dropped(id) => id in d.calls
    case Cancelled(id) => id in d.completions
  }

  function ApplyOne(d: Desk, msg: ApplyMsg): Desk
    requires msg.CommandMsg?
  {
    var (machine, result) := S.ApplyOp(d.machine, msg.command);
    var (pending, completion) := Take(d.pending, Key(result.clientId, result.requestId), msg.index, msg.term);
    d.(machine := machine, pending := pending, applied := d.applied + [Executed(msg)],
       taken := if completion.None? then None else Some(Taken(completion.value, result.replyMsg)))
  }

  function Step(d: Desk, a: Action): Desk
    requires Possible(d, a)
  {
    match a
    case Arrive(id, op) =>
      d.(calls := d.calls[id := Call(op, None, false, false)], completions := d.completions[id := NEW_COMPLETION])
    case Accepted(id, e) => d.(calls := d.calls[id := d.calls[id].(started := Some(e))])
    case Refused(id) => d.(calls := d.calls[id := d.calls[id].(refused := true)])
    case Registered(id) =>
      var call := d.calls[id];
      var p := PendingRequest(call.started.value.index, call.started.value.term, id);
      d.(calls := d.calls[id := call.(registered := true)], pending := Register(d.pending, KeyOf(call.op), p))
    case Applied(msg) => ApplyOne(d, msg)
    case Restore(msg, state) => d.(machine := state, applied := d.applied + [Restored(msg, state)])
    case Finish =>
      var t := d.taken.value;
      d.(taken := None, completions := d.completions[t.id := FinishOn(d.completions[t.id], t.reply)])
    case Dropped(id) => d.(pending := Drop(d.pending, KeyOf(d.calls[id].op), id))
    case Cancelled(id) => d.(completions := d.completions[id := CancelOn(d.completions[id])])
  }

  predicate Run(s: seq<Desk>, actions: seq<Action>) {
    && |s| == |actions| + 1 && s[0] == OPENING
    && forall k | 0 <= k < |actions| :: Possible(s[k], actions[k]) && s[k + 1] == Step(s[k], actions[k])
  }

  // ---------------------------------------------------------------- what every run keeps

  /** Turn q executed the command that call id's start appended, and reply is its result there. */
  ghost predicate Earned(d: Desk, id: nat, q: nat, reply: string) {
    && id in d.calls && d.calls[id].started.Some? && !d.calls[id].refused
    && q < |d.applied| && d.applied[q].Executed? && d.applied[q].msg.CommandMsg?
    && var msg := d.applied[q].msg;
       && msg.index == d.calls[id].started.value.index && msg.term == d.calls[id].started.value.term
       && KeyOf(msg.command) == KeyOf(d.calls[id].op)
       && reply == S.ApplyOp(Replay(d.applied[..q]), msg.command).1.replyMsg
  }

  /** The commands of a queue. */
  function Commands(q: seq<ApplyMsg>): seq<Op> {
    if q == [] then []
    else Commands(q[..|q| - 1]) + if q[|q| - 1].CommandMsg? then [q[|q| - 1].command] else []
  }

  ghost predicate CompletionOk(d: Desk, id: nat)
    requires id in d.completions
  {
    var c := d.completions[id];
    && |c.answers| == (if c.done then 1 else 0)
    && (c.cancelled || c.attached)
    && (c.done ==> exists q :: Earned(d, id, q, c.answers[0]))
  }

  ghost predicate PendingOk(d: Desk, key: Key)
    requires key in d.pending
  {
    var p := d.pending[key];
    && p.completion in d.calls && p.completion in d.completions
    && var call := d.calls[p.completion];
       && call.started.Some? && !call.refused && KeyOf(call.op) == key
       && call.started.value.index == p.logIndex && call.started.value.term == p.logTerm
  }

  ghost predicate DeskInv(d: Desk) {
    && (forall id | id in d.calls :: id in d.completions && !(d.calls[id].started.Some? && d.calls[id].refused))
    && (forall id {:trigger CompletionOk(d, id)} | id in d.completions :: CompletionOk(d, id))
    && (forall key {:trigger PendingOk(d, key)} | key in d.pending :: PendingOk(d, key))
    && (d.taken.Some? ==> d.taken.value.id in d.completions
                          && exists q :: Earned(d, d.taken.value.id, q, d.taken.value.reply))
    && d.machine == Replay(d.applied)
  }

  /** Calls and applied commands only accumulate. */
  ghost predicate DeskGrows(d: Desk, e: Desk) {
    && d.applied <= e.applied
    && (forall id | id in d.calls && d.calls[id].started.Some? && !d.calls[id].refused ::
          id in e.calls && e.calls[id].op == d.calls[id].op && e.calls[id].started == d.calls[id].started
          && !e.calls[id].refused)
  }

  lemma EarnedGrows(d: Desk, e: Desk, id: nat, q: nat, reply: string)
    requires DeskGrows(d, e) && Earned(d, id, q, reply)
    ensures Earned(e, id, q, reply)
  {
    assert d.applied[..q] == e.applied[..q];
  }

  lemma PendingKept(d: Desk, e: Desk, key: Key)
    requires DeskGrows(d, e) && key in d.pending && PendingOk(d, key)
    requires key in e.pending && e.pending[key] == d.pending[key]
    requires forall id | id in d.completions :: id in e.completions
    ensures PendingOk(e, key)
  {
  }

  lemma CompletionKept(d: Desk, e: Desk, id: nat)
    requires DeskGrows(d, e) && id in d.completions && CompletionOk(d, id) && id in e.completions
    requires e.completions[id].done == d.completions[id].done && e.completions[id].answers == d.completions[id].answers
    requires e.completions[id].cancelled || e.completions[id].attached
    ensures CompletionOk(e, id)
  {
    if d.completions[id].done {
      var q :| Earned(d, id, q, d.completions[id].answers[0]);
      EarnedGrows(d, e, id, q, d.completions[id].answers[0]);
    }
  }

  lemma TakenKept(d: Desk, e: Desk)
    requires DeskInv(d) && DeskGrows(d, e) && e.taken == d.taken && d.taken.Some?
    ensures exists q :: Earned(e, d.taken.value.id, q, d.taken.value.reply)
  {
    var q :| Earned(d, d.taken.value.id, q, d.taken.value.reply);
    EarnedGrows(d, e, d.taken.value.id, q, d.taken.value.reply);
  }

  lemma StillAttached(d: Desk, id: nat)
    requires id in d.completions && CompletionOk(d, id)
    ensures d.completions[id].cancelled || d.completions[id].attached
  {
  }

  lemma NewCompletionOk(d: Desk, id: nat)
    requires id in d.completions && d.completions[id] == NEW_COMPLETION
    ensures CompletionOk(d, id)
  {
  }

  lemma QuietCompletions(d: Desk, a: Action)
    requires DeskInv(d) && Possible(d, a) && !a.Applied? && !a.Finish? && !a.Restore? && DeskGrows(d, Step(d, a))
    ensures forall id {:trigger CompletionOk(Step(d, a), id)} | id in Step(d, a).completions ::
              CompletionOk(Step(d, a), id)
  {
    hide CompletionOk, PendingOk, Earned, DeskGrows, Register, Drop;
    var e := Step(d, a);
    forall id | id in e.completions ensures CompletionOk(e, id) {
      if id in d.completions {
        StillAttached(d, id);
        CompletionKept(d, e, id);
      } else {
        NewCompletionOk(e, id);
      }
    }
  }

  lemma QuietPending(d: Desk, a: Action)
    requires DeskInv(d) && Possible(d, a) && !a.Applied? && !a.Finish? && !a.Restore? && DeskGrows(d, Step(d, a))
    ensures forall key {:trigger PendingOk(Step(d, a), key)} | key in Step(d, a).pending :: PendingOk(Step(d, a), key)
  {
    hide CompletionOk, Earned, DeskGrows;
    var e := Step(d, a);
    forall key | key in e.pending ensures PendingOk(e, key) {
      if key in d.pending {
        assert PendingOk(d, key);
        PendingKept(d, e, key);
      }
    }
  }

  /** Steps that apply and finish nothing. */
  lemma QuietStep(d: Desk, a: Action)
    requires DeskInv(d) && Possible(d, a) && !a.Applied? && !a.Finish? && !a.Restore?
    ensures DeskInv(Step(d, a))
  {
    hide CompletionOk, PendingOk, Earned, Register, Drop;
    assert DeskGrows(d, Step(d, a));
    QuietCompletions(d, a);
    QuietPending(d, a);
    if d.taken.Some? { TakenKept(d, Step(d, a)); }
  }

  lemma FinishedOk(d: Desk, e: Desk, t: Taken)
    requires DeskGrows(d, e) && t.id in d.completions && CompletionOk(d, t.id) && t.id in e.completions
    requires e.completions[t.id] == FinishOn(d.completions[t.id], t.reply) && exists q :: Earned(d, t.id, q, t.reply)
    ensures CompletionOk(e, t.id)
  {
    if e.completions[t.id] == d.completions[t.id] {
      CompletionKept(d, e, t.id);
    } else {
      var q :| Earned(d, t.id, q, t.reply);
      EarnedGrows(d, e, t.id, q, t.reply);
      assert d.completions[t.id].answers == [] && e.completions[t.id].answers == [t.reply];
      assert Earned(e, t.id, q, e.completions[t.id].answers[0]);
    }
  }

  lemma FinishStep(d: Desk)
    requires DeskInv(d) && Possible(d, Finish)
    ensures DeskInv(Step(d, Finish))
  {
    hide CompletionOk, PendingOk, Earned, FinishOn;
    var e, t := Step(d, Finish), d.taken.value;
    assert DeskGrows(d, e);
    forall id | id in e.completions ensures CompletionOk(e, id) {
      if id == t.id {
        FinishedOk(d, e, t);
      } else {
        StillAttached(d, id);
        CompletionKept(d, e, id);
      }
    }
    forall key | key in e.pending ensures PendingOk(e, key) {
      PendingKept(d, e, key);
    }
  }

  lemma ReplaySnoc(turns: seq<Turn>, t: Turn)
    ensures t.Executed? && t.msg.CommandMsg? ==> Replay(turns + [t]) == S.ApplyOp(Replay(turns), t.msg.command).0
    ensures t.Restored? ==> Replay(turns + [t]) == t.state
  {
    assert (turns + [t])[..|turns + [t]| - 1] == turns;
  }

  /** Without restores the state machine is the fold of apply over the commands. */
  lemma {:induction false} ReplayIsFold(turns: seq<Turn>, queue: seq<ApplyMsg>)
    requires |queue| == |turns| && forall k | 0 <= k < |turns| :: turns[k] == Executed(queue[k])
    ensures Replay(turns) == S.ApplyAll(S.EMPTY, Commands(queue))
  {
    if turns != [] {
      var last := |turns| - 1;
      assert turns[last] == Executed(queue[last]);
      ReplayIsFold(turns[..last], queue[..last]);
      var before, all := Commands(queue[..last]), Commands(queue);
      if queue[last].CommandMsg? {
        assert all == before + [queue[last].command] && all[..|all| - 1] == before;
      } else {
        assert all == before;
      }
    }
  }

  /** The apply thread takes a completion only for the entry its own call started. */
  lemma AppliedStep(d: Desk, msg: ApplyMsg)
    requires DeskInv(d) && Possible(d, Applied(msg))
    ensures DeskInv(Step(d, Applied(msg)))
  {
    var e := ApplyOne(d, msg);
    var q := |d.applied|;
    ReplaySnoc(d.applied, Executed(msg));
    assert e.applied[..q] == d.applied;
    assert DeskGrows(d, e);
    forall id | id in e.completions ensures CompletionOk(e, id) {
      assert CompletionOk(d, id);
      CompletionKept(d, e, id);
    }
    forall key | key in e.pending ensures PendingOk(e, key) {
      assert PendingOk(d, key);
      PendingKept(d, e, key);
    }
    if e.taken.Some? {
      assert PendingOk(d, KeyOf(msg.command));
      assert Earned(e, e.taken.value.id, q, e.taken.value.reply);
    }
  }

  lemma RestoreStep(d: Desk, msg: ApplyMsg, state: S.State)
    requires DeskInv(d) && Possible(d, Restore(msg, state))
    ensures DeskInv(Step(d, Restore(msg, state)))
  {
    hide CompletionOk, PendingOk, Earned;
    var e := Step(d, Restore(msg, state));
    ReplaySnoc(d.applied, Restored(msg, state));
    assert DeskGrows(d, e);
    forall id | id in e.completions ensures CompletionOk(e, id) {
      StillAttached(d, id);
      CompletionKept(d, e, id);
    }
    forall key | key in e.pending ensures PendingOk(e, key) {
      PendingKept(d, e, key);
    }
  }

  lemma {:induction false} RunInv(s: seq<Desk>, actions: seq<Action>, k: nat)
    requires Run(s, actions) && k < |s|
    ensures DeskInv(s[k])
  {
    if k > 0 {
      RunInv(s, actions, k - 1);
      var a := actions[k - 1];
      assert s[k] == Step(s[k - 1], a);
      match a
      case Applied(msg) => AppliedStep(s[k - 1], msg);
      case Restore(msg, state) => RestoreStep(s[k - 1], msg, state);
      case Finish => FinishStep(s[k - 1]);
      case _ => QuietStep(s[k - 1], a);
    }
  }

  // ---------------------------------------------------------------- the promises

  /** Under any interleaving an RPC is answered through its completion at most once, and never one that was refused. */
  lemma FinishedAtMostOnce(s: seq<Desk>, actions: seq<Action>, k: nat, id: nat)
    requires Run(s, actions) && k < |s| && id in s[k].completions
    ensures |s[k].completions[id].answers| <= 1
    ensures s[k].completions[id].answers != [] ==> id in s[k].calls && !s[k].calls[id].refused
  {
    RunInv(s, actions, k);
    assert CompletionOk(s[k], id);
  }

  /** A cancelled completion is never finished: from its cancellation on its answers stay what they were. */
  lemma {:induction false} CancelledNeverFinished(s: seq<Desk>, actions: seq<Action>, j: nat, k: nat, id: nat)
    requires Run(s, actions) && j <= k < |s| && id in s[j].completions && s[j].completions[id].cancelled
    ensures id in s[k].completions && s[k].completions[id].cancelled
    ensures s[k].completions[id].answers == s[j].completions[id].answers
    decreases k
  {
    if j < k {
      CancelledNeverFinished(s, actions, j, k - 1, id);
      assert s[k] == Step(s[k - 1], actions[k - 1]);
    }
  }

  /** Whoever waits under a key asked for that key, and waits for the entry that Start gave it. */
  lemma WaitingCall(s: seq<Desk>, actions: seq<Action>, k: nat, key: Key)
    requires Run(s, actions) && k < |s| && key in s[k].pending
    ensures var p := s[k].pending[key];
            && p.completion in s[k].calls && s[k].calls[p.completion].started.Some?
            && KeyOf(s[k].calls[p.completion].op) == key
            && s[k].calls[p.completion].started.value.index == p.logIndex
            && s[k].calls[p.completion].started.value.term == p.logTerm
  {
    RunInv(s, actions, k);
    assert PendingOk(s[k], key);
  }

  /** An answer is the result of applying, at its own place in the log, the entry its own start call appended. */
  lemma AnswerIsEarned(s: seq<Desk>, actions: seq<Action>, k: nat, id: nat) returns (q: nat)
    requires Run(s, actions) && k < |s| && id in s[k].completions && s[k].completions[id].answers != []
    ensures Earned(s[k], id, q, s[k].completions[id].answers[0])
  {
    RunInv(s, actions, k);
    assert CompletionOk(s[k], id);
    q :| Earned(s[k], id, q, s[k].completions[id].answers[0]);
  }

  // ---------------------------------------------------------------- who waits is answered

  /** Call id is registered and has no answer yet. */
  ghost predicate Unanswered(d: Desk, id: nat) {
    id in d.calls && id in d.completions && d.calls[id].registered && !d.completions[id].done
  }

  /** No call waits after it was taken, and none is taken after it was answered. */
  ghost predicate Once(d: Desk) {
    && (forall id | id in d.completions && d.completions[id].done :: id in d.calls && d.calls[id].registered)
    && (forall key {:trigger d.pending[key]} | key in d.pending ::
          Unanswered(d, d.pending[key].completion)
          && (d.taken.Some? ==> d.taken.value.id != d.pending[key].completion))
    && (d.taken.Some? ==> Unanswered(d, d.taken.value.id))
  }

  lemma OneKey(d: Desk, key: Key, key': Key)
    requires DeskInv(d) && key in d.pending && key' in d.pending
    requires d.pending[key].completion == d.pending[key'].completion
    ensures key == key'
  {
    assert PendingOk(d, key) && PendingOk(d, key');
  }

  lemma OnceApplied(d: Desk, msg: ApplyMsg)
    requires DeskInv(d) && Once(d) && Possible(d, Applied(msg))
    ensures Once(Step(d, Applied(msg)))
  {
    hide CompletionOk, PendingOk, Earned;
    var e := ApplyOne(d, msg);
    forall key | key in e.pending
      ensures Unanswered(e, e.pending[key].completion)
              && (e.taken.Some? ==> e.taken.value.id != e.pending[key].completion)
    {
      assert key in d.pending && d.pending[key] == e.pending[key];
      if e.taken.Some? && e.taken.value.id == e.pending[key].completion { OneKey(d, KeyOf(msg.command), key); }
    }
  }

  lemma OnceRegistered(d: Desk, id: nat)
    requires DeskInv(d) && Once(d) && Possible(d, Registered(id))
    ensures Once(Step(d, Registered(id)))
  {
    hide CompletionOk, PendingOk, Earned;
    var e, call := Step(d, Registered(id)), d.calls[id];
    assert e.completions == d.completions && e.taken == d.taken;
    assert id in d.completions && !d.completions[id].done;
    forall key | key in e.pending
      ensures Unanswered(e, e.pending[key].completion)
              && (e.taken.Some? ==> e.taken.value.id != e.pending[key].completion)
    {
      assert key in d.pending ==> e.pending[key] == d.pending[key];
    }
  }

  lemma OnceFinish(d: Desk)
    requires DeskInv(d) && Once(d) && Possible(d, Finish)
    ensures Once(Step(d, Finish))
  {
    hide CompletionOk, PendingOk, Earned, FinishOn;
    assert forall key | key in d.pending :: Unanswered(d, d.pending[key].completion);
  }

  lemma OnceQuiet(d: Desk, a: Action)
    requires DeskInv(d) && Once(d) && Possible(d, a) && !a.Applied? && !a.Registered? && !a.Finish?
    ensures Once(Step(d, a))
  {
    hide CompletionOk, PendingOk, Earned;
    var e := Step(d, a);
    forall key | key in e.pending
      ensures Unanswered(e, e.pending[key].completion)
              && (e.taken.Some? ==> e.taken.value.id != e.pending[key].completion)
    {
      assert key in d.pending && e.pending[key] == d.pending[key];
    }
  }

  lemma OnceStep(d: Desk, a: Action)
    requires DeskInv(d) && Once(d) && Possible(d, a)
    ensures Once(Step(d, a))
  {
    hide DeskInv, Once, Step;
    match a
    case Applied(msg) => OnceApplied(d, msg);
    case Registered(id) => OnceRegistered(d, id);
    case Finish => OnceFinish(d);
    case _ => OnceQuiet(d, a);
  }

  lemma {:induction false} RunOnce(s: seq<Desk>, actions: seq<Action>, k: nat)
    requires Run(s, actions) && k < |s|
    ensures DeskInv(s[k]) && Once(s[k])
  {
    hide CompletionOk, PendingOk, Earned;
    RunInv(s, actions, k);
    if k > 0 {
      RunOnce(s, actions, k - 1);
      assert s[k] == Step(s[k - 1], actions[k - 1]);
      hide Step, DeskInv, Once;
      OnceStep(s[k - 1], actions[k - 1]);
    }
  }

  /** Does applying this message look up the key?  No-ops, which have neither client nor request id, do not. */
  predicate Concerns(msg: ApplyMsg, key: Key) {
    msg.CommandMsg? && msg.command.clientId == key.clientId && msg.command.requestId == key.requestId
    && key.clientId != "" && key.requestId != 0
  }

  /** Key waits for exactly the entry e, on behalf of call id. */
  predicate WaitsFor(d: Desk, key: Key, e: Entry, id: nat) {
    key in d.pending && d.pending[key] == PendingRequest(e.index, e.term, id)
  }

  /**
   * Whoever registers under a free key keeps the place, whatever others do, until the call itself is dropped or a
   * command with its key is applied.
   */
  lemma {:induction false} WaiterStays(s: seq<Desk>, actions: seq<Action>, j: nat, k: nat, id: nat, key: Key, e: Entry)
    requires Run(s, actions) && j < k < |s| && actions[j] == Registered(id)
    requires id in s[j].calls && s[j].calls[id].started == Some(e) && key == KeyOf(s[j].calls[id].op)
    requires key !in s[j].pending
    requires forall m | j < m < k ::
      actions[m] != Dropped(id) && !(actions[m].Applied? && Concerns(actions[m].msg, key))
    ensures WaitsFor(s[k], key, e, id)
    decreases k
  {
    assert Possible(s[k - 1], actions[k - 1]) && s[k] == Step(s[k - 1], actions[k - 1]);
    if j < k - 1 {
      WaiterStays(s, actions, j, k - 1, id, key, e);
    }
  }

  /** When the command of its key, index and term is applied, that call is taken, with the result of the command. */
  lemma WaiterTaken(d: Desk, msg: ApplyMsg, key: Key, e: Entry, id: nat)
    requires Possible(d, Applied(msg)) && WaitsFor(d, key, e, id)
    requires Concerns(msg, key) && msg.index == e.index && msg.term == e.term
    ensures var r := Step(d, Applied(msg));
            && r.taken == Some(Taken(id, S.ApplyOp(d.machine, msg.command).1.replyMsg))
            && r.pending == d.pending - {key}
  {
  }

  /** A command of its key at another place in the log takes the call out of the table and answers nobody. */
  lemma WaiterMissed(d: Desk, msg: ApplyMsg, key: Key, e: Entry, id: nat)
    requires Possible(d, Applied(msg)) && WaitsFor(d, key, e, id)
    requires Concerns(msg, key) && !(msg.index == e.index && msg.term == e.term)
    ensures Step(d, Applied(msg)).taken == None && Step(d, Applied(msg)).pending == d.pending - {key}
  {
  }

  lemma {:induction false} TakenStays(s: seq<Desk>, actions: seq<Action>, m: nat, f: nat, t: Taken)
    requires Run(s, actions) && m <= f < |s| && s[m].taken == Some(t)
    requires forall x | m <= x < f :: actions[x] != Finish
    ensures s[f].taken == Some(t)
    decreases f
  {
    if m < f {
      TakenStays(s, actions, m, f - 1, t);
      assert Possible(s[f - 1], actions[f - 1]) && s[f] == Step(s[f - 1], actions[f - 1]);
    }
  }

  /**
   * A waiting RPC is answered: a call registered at step j under a free key and not dropped gets, by the first finish f
   * after the step m that applies its entry as the first command of its key, exactly the result, unless it was
   * cancelled.
   */
  lemma WaiterAnswered(s: seq<Desk>, actions: seq<Action>, j: nat, m: nat, f: nat, id: nat, key: Key, e: Entry)
    requires Run(s, actions) && j < m < f < |actions| && actions[j] == Registered(id)
    requires id in s[j].calls && s[j].calls[id].started == Some(e) && key == KeyOf(s[j].calls[id].op)
    requires key !in s[j].pending
    requires forall x | j < x < m ::
      actions[x] != Dropped(id) && !(actions[x].Applied? && Concerns(actions[x].msg, key))
    requires actions[m].Applied? && Concerns(actions[m].msg, key)
    requires actions[m].msg.index == e.index && actions[m].msg.term == e.term
    requires actions[f] == Finish && forall x | m < x < f :: actions[x] != Finish
    ensures id in s[f].completions && id in s[f + 1].completions
    ensures s[f + 1].completions[id].answers ==
            if s[f].completions[id].cancelled then []
            else [S.ApplyOp(s[m].machine, actions[m].msg.command).1.replyMsg]
  {
    hide Earned, DeskGrows, Concerns;
    WaiterStays(s, actions, j, m, id, key, e);
    assert Possible(s[m], actions[m]) && s[m + 1] == Step(s[m], actions[m]);
    WaiterTaken(s[m], actions[m].msg, key, e, id);
    var t := Taken(id, S.ApplyOp(s[m].machine, actions[m].msg.command).1.replyMsg);
    TakenStays(s, actions, m + 1, f, t);
    RunOnce(s, actions, f);
    assert CompletionOk(s[f], id);
    assert Possible(s[f], Finish) && s[f + 1] == Step(s[f], Finish);
  }
}
