/** Identifiers, log entries and messages of the Raft protocol (src/raft/message.rs,
    and the entry type of src/raft/log.rs). Terms and indexes are unbounded naturals. */
module RaftMessage {
  import opened Basics

  type NodeID = nat
  type Term = nat
  type Index = nat
  type RequestID = nat
  type Command = seq<nat>

  /** A log entry. A `None` command is the noop a leader proposes when elected. */
  datatype Entry = Entry(index: Index, term: Term, command: Option<Command>)

  datatype Request = ReadRequest(command: Command) | WriteRequest(command: Command) | StatusRequest

  /** What a client is told. The replicated state machine is any deterministic one, so its
      state is represented by the sequence of entries applied so far: every result a real
      machine returns is a function of that sequence (and of the command). */
  datatype Response =
    | WriteResponse(state: seq<Entry>)
    | ReadResponse(state: seq<Entry>, command: Command)
    | StatusResponse(leader: NodeID, term: Term, matchIndex: map<NodeID, Index>, commitIndex: Index,
        appliedIndex: Index)
    | Abort

  datatype Message =
    | Campaign(lastIndex: Index, lastTerm: Term)
    | CampaignResponse(vote: bool)
    | Heartbeat(hbLastIndex: Index, hbCommitIndex: Index, hbReadSeq: nat)
    | HeartbeatResponse(hbMatchIndex: Index, hbConfirmSeq: nat)
    | Append(baseIndex: Index, baseTerm: Term, entries: seq<Entry>)
    | AppendResponse(matchIndex: Index, rejectIndex: Index)
    | ReadConfirm(seqNo: nat)
    | ReadConfirmed(seqNo: nat)
    | ClientRequest(id: RequestID, request: Request)
    | ClientResponse(id: RequestID, response: Response)

  datatype Envelope = Envelope(from: NodeID, term: Term, to: NodeID, message: Message)
}
