/** Values exchanged between nodes, their clients and the state machine. */
module Types {

  datatype Option<+T> = None | Some(value: T)

  type Id = int

  /** A client command (the fields of class Op). */
  datatype Op = Op(operation: string, key: string, value: string, clientId: string, requestId: int)

  const NO_OP := "NO-OP"

  /** The entry a new leader appends.  The source leaves requestId uninitialised, so it is a parameter. */
  function Noop(requestId: int): Op {
    Op(NO_OP, "", "", "", requestId)
  }

  /** Log entry. */
  datatype Entry = Entry(term: int, index: int, command: Op)

  datatype Status = Follower | Candidate | Leader | PreCandidate

  // Replies' status codes.
  const LOG_OUTDATED := 0
  const VOTED := 1
  const EXPIRED := 2
  const NORMAL := 3
  const NOT_UP_TO_DATE := 4

  const NO_VOTE: Id := -1
  const NO_SUGGESTION := -100

  /** Arguments of both vote rounds. */
  datatype VoteArgs = VoteArgs(term: int, candidate: Id, lastIndex: int, lastTerm: int)
  datatype VoteReply = VoteReply(term: int, granted: bool, state: int)

  datatype AppendArgs = AppendArgs(term: int, leader: Id, prevIndex: int, prevTerm: int,
                                   entries: seq<Entry>, leaderCommit: int, readRound: Option<nat>)
  datatype AppendReply = AppendReply(term: int, success: bool, updateNextIndex: int, status: int,
                                     readRound: Option<nat>)

  datatype SnapshotArgs = SnapshotArgs(term: int, leader: Id, lastIndex: int, lastTerm: int, data: string)
  datatype SnapshotReply = SnapshotReply(term: int)

  datatype Request =
    | RequestVote(vote: VoteArgs)
    | PreVote(pre: VoteArgs, round: int)  // the round stays with the caller and comes back with the answer
    | AppendEntries(append: AppendArgs)
    | InstallSnapshot(snapshot: SnapshotArgs)

  datatype Reply =
    | VoteAnswer(vote: VoteReply)
    | PreVoteAnswer(pre: VoteReply)
    | AppendAnswer(append: AppendReply)
    | SnapshotAnswer(snapshot: SnapshotReply)

  /** What a node hands to the state machine through its apply queue. */
  datatype ApplyMsg =
    | CommandMsg(command: Op, index: int, term: int)
    | SnapshotMsg(data: string, index: int, term: int)

  /**
   * What a handler lets the outside see, in order: requests handed to the transport, apply messages,
   * answers to read callbacks and results of Start.  Elected, Committed and Opened are observation points at
   * the lines that make a node leader, advance a leader's commit index, and open a read round.
   */
  datatype Output =
    | Send(to: Id, request: Request)
    | Apply(msg: ApplyMsg)
    | Answer(callback: nat, ok: bool, round: int, readIndex: int)
    | Started(entry: Entry)
    | Elected(term: int)
    | Committed(entry: Entry)
    | Opened(term: int, openRound: nat, openIndex: int)
}
