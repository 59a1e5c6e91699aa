/** The key-value state machine: commands applied once per client request, whatever the log repeats. */
module StateMachine {
  import opened Types
  import opened SkipLists

  const GET := "GET"
  const PUT := "PUT"
  const DEL := "DEL"

  const SUCCESS := "Success"
  const EXECUTE_ERROR := "ExecuteError"

  datatype Record = Record(lastRequestId: int, lastReplyMsg: string)

  datatype ApplyResult = ApplyResult(clientId: string, requestId: int, replyMsg: string)

  /** The contents of the store and the deduplication table. */
  datatype State = State(kv: map<string, string>, dedup: map<string, Record>)

  const EMPTY := State(map[], map[])

  // ---------------------------------------------------------------- one command

  /** What a command does to the store when it is executed. */
  function Effect(kv: map<string, string>, op: Op): map<string, string> {
    if op.operation == PUT then kv[op.key := op.value]
    else if op.operation == DEL then kv - {op.key}
    else kv
  }

  function ReplyOf(kv: map<string, string>, op: Op): string {
    if op.operation == PUT then SUCCESS
    else if op.operation == DEL then (if op.key in kv then SUCCESS else EXECUTE_ERROR)
    else ""
  }

  predicate Duplicate(s: State, op: Op) {
    op.clientId in s.dedup && op.requestId <= s.dedup[op.clientId].lastRequestId
  }

  function ApplyOp(s: State, op: Op): (State, ApplyResult) {
    if Duplicate(s, op) then (s, ApplyResult(op.clientId, op.requestId, s.dedup[op.clientId].lastReplyMsg))
    else
      var reply := ReplyOf(s.kv, op);
      (State(Effect(s.kv, op), s.dedup[op.clientId := Record(op.requestId, reply)]),
       ApplyResult(op.clientId, op.requestId, reply))
  }

  /**
   * What a command means, whatever computes it.  A duplicate changes nothing and is told what the record says.  A new
   * insertion sets its key, a new deletion takes its key out and succeeds exactly if it was there, and nothing else
   * touches the store; the record of the client, and of no other, becomes that of this request.
   */
  lemma CommandMeans(s: State, op: Op)
    ensures var (t, r) := ApplyOp(s, op);
            && r.clientId == op.clientId && r.requestId == op.requestId
            && var repeated := op.clientId in s.dedup && op.requestId <= s.dedup[op.clientId].lastRequestId;
               if repeated then t == s && r.replyMsg == s.dedup[op.clientId].lastReplyMsg
               else
                 && t.dedup == s.dedup[op.clientId := Record(op.requestId, r.replyMsg)]
                 && (forall k | k != op.key :: (k in t.kv <==> k in s.kv) && (k in s.kv ==> t.kv[k] == s.kv[k]))
                 && (op.operation == "PUT" ==> op.key in t.kv && t.kv[op.key] == op.value && r.replyMsg == "Success")
                 && (op.operation == "DEL" ==>
                       op.key !in t.kv && r.replyMsg == if op.key in s.kv then "Success" else "ExecuteError")
                 && (op.operation != "PUT" && op.operation != "DEL" ==> t.kv == s.kv && r.replyMsg == "")
  {
  }

  // ---------------------------------------------------------------- sequences of commands

  function ApplyAll(s: State, ops: seq<Op>): State {
    if ops == [] then s else ApplyOp(ApplyAll(s, ops[..|ops| - 1]), ops[|ops| - 1]).0
  }

  /** Plain execution, without deduplication. */
  function Execute(kv: map<string, string>, ops: seq<Op>): map<string, string> {
    if ops == [] then kv else Effect(Execute(kv, ops[..|ops| - 1]), ops[|ops| - 1])
  }

  /** Does the last command have a greater request id than every earlier one of its client? */
  predicate LastIsNew(ops: seq<Op>)
    requires ops != []
  {
    var last := |ops| - 1;
    forall k | 0 <= k < last && ops[k].clientId == ops[last].clientId :: ops[k].requestId < ops[last].requestId
  }

  /** The commands whose request id exceeds every earlier one of the same client. */
  function NewOnly(ops: seq<Op>): seq<Op> {
    if ops == [] then []
    else NewOnly(ops[..|ops| - 1]) + if LastIsNew(ops) then [ops[|ops| - 1]] else []
  }

  /** The table holds, for every client heard of, the greatest request id so far. */
  ghost predicate Tracks(s: State, ops: seq<Op>) {
    && (forall k | 0 <= k < |ops| ::
          ops[k].clientId in s.dedup && ops[k].requestId <= s.dedup[ops[k].clientId].lastRequestId)
    && (forall c | c in s.dedup ::
          exists k :: 0 <= k < |ops| && ops[k].clientId == c && ops[k].requestId == s.dedup[c].lastRequestId)
  }

  lemma TracksNext(s: State, before: seq<Op>, op: Op)
    requires Tracks(s, before)
    ensures Tracks(ApplyOp(s, op).0, before + [op])
  {
    hide Effect, ReplyOf;
    var t, ops := ApplyOp(s, op).0, before + [op];
    assert ops[|before|] == op && forall k | 0 <= k < |before| :: ops[k] == before[k];
    forall c | c in t.dedup
      ensures exists k :: 0 <= k < |ops| && ops[k].clientId == c && ops[k].requestId == t.dedup[c].lastRequestId
    {
      if c != op.clientId || Duplicate(s, op) {
        var k :| 0 <= k < |before| && before[k].clientId == c && before[k].requestId == s.dedup[c].lastRequestId;
        assert ops[k] == before[k];
      }
    }
  }

  lemma {:induction false} TableTracks(ops: seq<Op>)
    ensures Tracks(ApplyAll(EMPTY, ops), ops)
  {
    hide ApplyOp;
    if ops != [] {
      var before := ops[..|ops| - 1];
      TableTracks(before);
      TracksNext(ApplyAll(EMPTY, before), before, ops[|ops| - 1]);
      assert ops == before + [ops[|ops| - 1]];
    }
  }

  /** A command is a duplicate exactly if its request id does not exceed all earlier ones of its client. */
  lemma DuplicateIffOld(ops: seq<Op>)
    requires ops != []
    ensures Duplicate(ApplyAll(EMPTY, ops[..|ops| - 1]), ops[|ops| - 1]) <==> !LastIsNew(ops)
  {
    var before, last := ops[..|ops| - 1], |ops| - 1;
    TableTracks(before);
    var s := ApplyAll(EMPTY, before);
    assert forall k | 0 <= k < last :: before[k] == ops[k];
    if Duplicate(s, ops[last]) {
      var k :| 0 <= k < last && before[k].clientId == ops[last].clientId
               && before[k].requestId == s.dedup[ops[last].clientId].lastRequestId;
      assert ops[k] == before[k];
    }
  }

  /** Exactly once: the store is what plain execution of only the new commands makes it. */
  lemma {:induction false} ExactlyOnce(ops: seq<Op>)
    ensures ApplyAll(EMPTY, ops).kv == Execute(map[], NewOnly(ops))
  {
    if ops != [] {
      var before, last := ops[..|ops| - 1], |ops| - 1;
      ExactlyOnce(before);
      DuplicateIffOld(ops);
      if LastIsNew(ops) {
        assert NewOnly(ops) == NewOnly(before) + [ops[last]];
        assert NewOnly(ops)[..|NewOnly(ops)| - 1] == NewOnly(before);
      } else {
        assert NewOnly(ops) == NewOnly(before);
      }
    }
  }

  /** Command p is the first of its client with so great a request id, and puts something under k or takes k out. */
  ghost predicate Writes(ops: seq<Op>, p: nat, k: string) {
    && p < |ops| && ops[p].key == k && (ops[p].operation == "PUT" || ops[p].operation == "DEL")
    && forall j | 0 <= j < p && ops[j].clientId == ops[p].clientId :: ops[j].requestId < ops[p].requestId
  }

  /** Command p is the last to write k. */
  ghost predicate LastWrite(ops: seq<Op>, p: nat, k: string) {
    Writes(ops, p, k) && forall q: nat | p < q :: !Writes(ops, q, k)
  }

  /** Writes of a sequence are those of its beginning, and perhaps its last command. */
  lemma WritesBefore(ops: seq<Op>, p: nat, k: string)
    requires ops != [] && p < |ops| - 1
    ensures Writes(ops, p, k) <==> Writes(ops[..|ops| - 1], p, k)
  {
    var before := ops[..|ops| - 1];
    assert forall j | 0 <= j < |before| :: before[j] == ops[j];
  }

  lemma LastWriteStays(ops: seq<Op>, p: nat, k: string)
    requires ops != [] && !Writes(ops, |ops| - 1, k)
    ensures LastWrite(ops, p, k) <==> LastWrite(ops[..|ops| - 1], p, k)
  {
    var before := ops[..|ops| - 1];
    if p < |ops| - 1 { WritesBefore(ops, p, k); }
    forall q: nat | p < q ensures Writes(ops, q, k) <==> Writes(before, q, k) {
      if q < |ops| - 1 { WritesBefore(ops, q, k); }
    }
  }

  lemma LastCommandWrites(ops: seq<Op>, k: string)
    requires ops != []
    ensures Writes(ops, |ops| - 1, k) <==>
            && LastIsNew(ops) && ops[|ops| - 1].key == k
            && (ops[|ops| - 1].operation == "PUT" || ops[|ops| - 1].operation == "DEL")
  {
  }

  /** The store after any commands: k holds v exactly if the last new command that wrote k put v there. */
  lemma {:induction false} FinalValue(ops: seq<Op>, k: string, v: string)
    ensures k in ApplyAll(EMPTY, ops).kv && ApplyAll(EMPTY, ops).kv[k] == v
            <==> exists p: nat :: LastWrite(ops, p, k) && ops[p].operation == "PUT" && ops[p].value == v
  {
    if ops != [] {
      var before, last := ops[..|ops| - 1], |ops| - 1;
      FinalValue(before, k, v);
      DuplicateIffOld(ops);
      CommandMeans(ApplyAll(EMPTY, before), ops[last]);
      LastCommandWrites(ops, k);
      hide ApplyOp;
      if Writes(ops, last, k) {
        assert LastWrite(ops, last, k);
        assert forall p: nat :: LastWrite(ops, p, k) ==> p == last;
      } else {
        forall p: nat ensures LastWrite(ops, p, k) <==> LastWrite(before, p, k) {
          LastWriteStays(ops, p, k);
        }
      }
    }
  }

  /** Replaying commands that were applied changes neither the store nor the table. */
  lemma {:induction false} ReplayChangesNothing(ops: seq<Op>, again: seq<Op>)
    requires forall op | op in again :: op in ops
    ensures ApplyAll(ApplyAll(EMPTY, ops), again) == ApplyAll(EMPTY, ops)
  {
    if again != [] {
      var last := again[|again| - 1];
      assert forall op | op in again[..|again| - 1] :: op in again;
      ReplayChangesNothing(ops, again[..|again| - 1]);
      TableTracks(ops);
      assert last in again && last in ops;
    }
  }

  /** A client that repeats its latest request gets the answer it got, or would have got, the first time. */
  lemma RepeatGetsSameReply(s: State, op: Op)
    ensures !Duplicate(s, op) ==>
      var (t, result) := ApplyOp(s, op); Duplicate(t, op) && ApplyOp(t, op) == (t, result)
  {
  }

  /** Has the client of op asked for anything with a greater request id among these commands? */
  predicate NewerAsked(op: Op, after: seq<Op>) {
    exists k :: 0 <= k < |after| && after[k].clientId == op.clientId && after[k].requestId > op.requestId
  }

  /** after[k] is the client's newest request among after, and newer than op. */
  predicate Newest(op: Op, after: seq<Op>, k: nat) {
    && k < |after| && after[k].clientId == op.clientId && after[k].requestId > op.requestId
    && forall j | 0 <= j < |after| && after[j].clientId == op.clientId :: after[j].requestId <= after[k].requestId
  }

  /** The reply to op and, in the state that follows it, the reply to after[k]. */
  function ReplyTo(s: State, op: Op, after: seq<Op>, k: int): string
    requires -1 <= k < |after|
  {
    if k == -1 then ApplyOp(s, op).1.replyMsg
    else ApplyOp(ApplyAll(ApplyOp(s, op).0, after[..k]), after[k]).1.replyMsg
  }

  /**
   * The client's record after op and what follows it: it is that of the client's newest request.  -1 stands for op
   * itself.
   */
  lemma {:induction false} RecordIsNewest(s: State, op: Op, after: seq<Op>) returns (k: int)
    requires !Duplicate(s, op)
    ensures -1 <= k < |after| && (k == -1 <==> !NewerAsked(op, after)) && (k >= 0 ==> Newest(op, after, k))
    ensures var t := ApplyAll(ApplyOp(s, op).0, after);
            && op.clientId in t.dedup
            && t.dedup[op.clientId] == Record(if k == -1 then op.requestId else after[k].requestId,
                                              ReplyTo(s, op, after, k))
    decreases |after|
  {
    if after == [] {
      k := -1;
    } else {
      var last := |after| - 1;
      var rest := after[..last];
      k := RecordIsNewest(s, op, rest);
      assert forall j | 0 <= j < last :: rest[j] == after[j];
      if k >= 0 {
        assert rest[..k] == after[..k];
        assert after[k].clientId == op.clientId;
      }
      if after[last].clientId == op.clientId && !Duplicate(ApplyAll(ApplyOp(s, op).0, rest), after[last]) {
        k := last;
      }
    }
  }

  /** A retry, however late, is answered with the reply to the client's newest request, and changes nothing. */
  lemma RetryReply(s: State, op: Op, after: seq<Op>) returns (k: int)
    requires !Duplicate(s, op)
    ensures -1 <= k < |after| && (k == -1 <==> !NewerAsked(op, after)) && (k >= 0 ==> Newest(op, after, k))
    ensures var t := ApplyAll(ApplyOp(s, op).0, after);
            ApplyOp(t, op) == (t, ApplyResult(op.clientId, op.requestId, ReplyTo(s, op, after, k)))
  {
    k := RecordIsNewest(s, op, after);
  }

  /** So it gets its own reply exactly if the client has asked for nothing newer, or got the same reply for that. */
  lemma OwnReplyIff(s: State, op: Op, after: seq<Op>) returns (k: int)
    requires !Duplicate(s, op)
    ensures -1 <= k < |after| && (k == -1 <==> !NewerAsked(op, after)) && (k >= 0 ==> Newest(op, after, k))
    ensures ApplyOp(ApplyAll(ApplyOp(s, op).0, after), op).1 == ApplyOp(s, op).1
            <==> !NewerAsked(op, after) || ReplyTo(s, op, after, k) == ReplyTo(s, op, after, -1)
  {
    k := RetryReply(s, op, after);
  }

  /** A deletion that found nothing, repeated after the same client's later insertion, is told that it succeeded. */
  lemma LateRetryMisled()
    ensures var del, put := Op(DEL, "k", "", "c", 1), Op(PUT, "j", "v", "c", 2);
            && ApplyOp(EMPTY, del).1 == ApplyResult("c", 1, EXECUTE_ERROR)
            && ApplyOp(ApplyAll(EMPTY, [del, put]), del).1 == ApplyResult("c", 1, SUCCESS)
  {
    var del, put := Op(DEL, "k", "", "c", 1), Op(PUT, "j", "v", "c", 2);
    assert [del, put][..1] == [del] && [del][..0] == [];
    assert ApplyAll(EMPTY, [del]) == ApplyOp(EMPTY, del).0;
    assert ApplyAll(EMPTY, [del, put]) == ApplyOp(ApplyAll(EMPTY, [del]), put).0;
  }

  lemma {:induction false} ApplyAllJoins(s: State, a: seq<Op>, b: seq<Op>)
    ensures ApplyAll(s, a + b) == ApplyAll(ApplyAll(s, a), b)
  {
    if b == [] {
      assert a + b == a;
    } else {
      var rest := b[..|b| - 1];
      ApplyAllJoins(s, a, rest);
      assert (a + b)[..|a + b| - 1] == a + rest;
    }
  }

  // ---------------------------------------------------------------- the object

  class KVStateMachine {
    const kv: SkipList
    var dedup: map<string, Record>

    ghost predicate Valid()
      reads this, kv, kv.Repr
    {
      kv.Valid() && this !in kv.Repr
    }

    ghost function View(): State
      reads this, kv
    {
      State(kv.contents, dedup)
    }

    constructor (maxLevel: nat)
      ensures Valid() && fresh(kv) && fresh(kv.Repr) && View() == EMPTY
    {
      kv := new SkipList(maxLevel);
      dedup := map[];
    }

    /** tosses decide the height of a new tower in the skip list. */
    method Apply(op: Op, tosses: nat) returns (result: ApplyResult)
      requires Valid()
      modifies this, kv, kv.Repr
      ensures Valid() && fresh(kv.Repr - old(kv.Repr))
      ensures (View(), result) == ApplyOp(old(View()), op)
    {
      hide SkipList.Valid;
      if op.clientId in dedup && op.requestId <= dedup[op.clientId].lastRequestId {
        return ApplyResult(op.clientId, op.requestId, dedup[op.clientId].lastReplyMsg);
      }
      var replyMsg := "";
      if op.operation == PUT {
        var ok := kv.Insert(op.key, op.value, tosses);
        replyMsg := if ok then SUCCESS else EXECUTE_ERROR;
      } else if op.operation == DEL {
        var ok := kv.Erase(op.key);
        replyMsg := if ok then SUCCESS else EXECUTE_ERROR;
      }
      dedup := dedup[op.clientId := Record(op.requestId, replyMsg)];
      result := ApplyResult(op.clientId, op.requestId, replyMsg);
    }
  }
}
