/** The values that travel through yaraft: log entries and protocol messages
    (include/yaraft/idl_wrapper.h). 64-bit wrap-around is not modelled. */
module Types {

  type NodeId = nat

  /** The placeholder id used when there is no leader, no vote or no transferee. */
  const NONE: NodeId := 0

  datatype EntryType = EntryNormal | EntryConfChange

  datatype Entry = Entry(term: nat, index: nat, kind: EntryType, data: string) {
    /** The size that counts against the message size limit. */
    function ByteSize(): nat {
      10 + |data|
    }
  }

  /** The log as one sequence: the entry with index i is at position i - 1. */
  type Log = seq<Entry>

  datatype MsgType =
    | MsgHup | MsgBeat | MsgProp | MsgApp | MsgAppResp | MsgVote | MsgVoteResp
    | MsgSnap | MsgHeartbeat | MsgHeartbeatResp | MsgUnreachable | MsgSnapStatus
    | MsgCheckQuorum | MsgTransferLeader | MsgTimeoutNow | MsgReadIndex
    | MsgReadIndexResp | MsgPreVote | MsgPreVoteResp

  datatype Message = Message(
    kind: MsgType,
    to: NodeId,
    from: NodeId,
    term: nat,
    logTerm: nat,
    index: nat,
    entries: seq<Entry>,
    commit: nat,
    reject: bool,
    rejectHint: nat,
    context: string)

  /** A message of the given kind to the given node, every other field empty. */
  function Blank(kind: MsgType, to: NodeId): Message {
    Message(kind, to, NONE, 0, 0, 0, [], 0, false, 0, "")
  }

  function Min(a: nat, b: nat): nat {
    if a <= b then a else b
  }

  function Max(a: nat, b: nat): nat {
    if a >= b then a else b
  }
}
