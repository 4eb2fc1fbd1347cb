/** The data a Raft node keeps, writes to disk and exchanges with its peers. */
module RaftTypes {

  datatype Option<+T> = None | Some(value: T)

  /** A client operation; it travels through Raft as the command of a log entry. */
  datatype Op = Op(operation: string, key: string, value: string, clientId: string, requestId: int)

  datatype LogEntry = LogEntry(command: Op, logTerm: nat, logIndex: nat)

  datatype Status = Follower | Candidate | Leader

  /** What the persister holds. A server that never saved anything reads `BLANK_DISK`. */
  datatype Disk = Disk(term: nat, votedFor: int, snapIndex: nat, snapTerm: nat, log: seq<LogEntry>)

  const NOBODY := -1
  const BLANK_DISK := Disk(0, NOBODY, 0, 0, [])

  /** The run-time assertions of the handlers that no single node can discharge alone.
      A failed assertion ends the process. */
  datatype Assertion =
    | NextIndexPositive      // raft.cpp:204
    | PrevIndexInLog         // raft.cpp:827, reached through getPrevLogInfo
    | NextIndexInLog         // raft.cpp:332
    | LeaderTwice            // raft.cpp:404
    | SameTermOtherCommand   // raft.cpp:514

  datatype VoteState = Voted | Expire | Normal

  datatype VoteArgs = VoteArgs(term: nat, candidate: nat, lastIndex: nat, lastTerm: nat)
  datatype VoteReply = VoteReply(term: nat, granted: bool, state: VoteState)

  datatype AppendArgs = AppendArgs(
    term: nat, leader: nat, prevIndex: nat, prevTerm: nat, entries: seq<LogEntry>, leaderCommit: nat)
  {
    /** The index of the last entry the message covers. */
    function End(): nat { prevIndex + |entries| }
  }

  /** `updateNext` is NO_UPDATE when the receiver only reports its newer term. */
  datatype AppendReply = AppendReply(term: nat, success: bool, updateNext: int)
  const NO_UPDATE := -100

  datatype InstallArgs = InstallArgs(term: nat, leader: nat, snapIndex: nat, snapTerm: nat)

  datatype ApplyMsg = ApplyMsg(index: nat, command: Op)

  function Max(a: int, b: int): int { if a < b then b else a }
  function Min(a: int, b: int): int { if a < b then a else b }

  /** Entry k of a log that starts after index `base` carries index base + 1 + k. */
  predicate Contiguous(log: seq<LogEntry>, base: nat)
  {
    forall k | 0 <= k < |log| :: log[k].logIndex == base + 1 + k
  }
}
