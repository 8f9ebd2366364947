/** A cluster of Raft nodes and every envelope ever sent. A sent envelope may be delivered
    at any later time, any number of times, or never; so messages may be lost, delayed,
    reordered and repeated. */
module RaftCluster {
  import opened Basics
  import opened RaftMessage
  import opened RaftLog
  import opened RaftNode

  datatype Cluster = Cluster(nodes: map<NodeID, Node>, sent: set<Envelope>)

  /** What can happen. Timeouts are the random draws of the source. A restart finds the
      entries, the term and the vote on disk; the commit index and the state machine may
      have fallen back. */
  datatype Event =
    | Deliver(envelope: Envelope, timeout: nat)
    | Clock(id: NodeID, timeout: nat)
    | Submit(id: NodeID, request: RequestID, body: Request, timeout: nat)
    | Restart(id: NodeID, commitIndex: Index, applied: nat, timeout: nat)

  /** Every node starts empty, with the same peer set. */
  ghost predicate Init(c: Cluster) {
    && c.sent == {}
    && forall i :: i in c.nodes ==> Fresh(c, i)
  }

  ghost predicate Fresh(c: Cluster, i: NodeID)
    requires i in c.nodes
  {
    exists timeout: nat :: c.nodes[i] == NewNode(i, c.nodes.Keys - {i}, c.nodes[i].opts, EMPTY_LOG, [], timeout).node
  }

  /** A node that panics is halted, but what it wrote and sent before stays. */
  ghost function Install(c: Cluster, i: NodeID, r: Effect): Cluster {
    Cluster(c.nodes[i := if r.panic.Some? then r.node.(role := Halted) else r.node], c.sent + r.out)
  }

  /** A node that can take a step. Every node of a run is `Valid`: it starts so, and every
      handler keeps it so. */
  ghost predicate Runs(c: Cluster, i: NodeID) {
    i in c.nodes && Valid(c.nodes[i]) && !c.nodes[i].role.Halted?
  }

  ghost predicate Next(c: Cluster, ev: Event, c': Cluster) {
    match ev
    case Deliver(e, timeout) =>
      && e in c.sent && e.from != e.to
      && Runs(c, e.to)
      && c' == Install(c, e.to, Step(c.nodes[e.to], e, timeout))
    case Clock(i, timeout) =>
      && Runs(c, i)
      && c' == Install(c, i, Tick(c.nodes[i], timeout))
    case Submit(i, id, body, timeout) =>
      && Runs(c, i)
      && c' == Install(c, i, Step(c.nodes[i], Envelope(i, c.nodes[i].log.term, i, ClientRequest(id, body)), timeout))
    case Restart(i, commitIndex, k, timeout) =>
      && i in c.nodes && Valid(c.nodes[i])
      && commitIndex <= c.nodes[i].log.commitIndex && k <= |c.nodes[i].applied|
      && c' == Install(c, i, NewNode(c.nodes[i].id, c.nodes[i].peers, c.nodes[i].opts,
                                     Recovered(c.nodes[i].log, commitIndex), c.nodes[i].applied[..k], timeout))
  }

  /** The message hands a client's request to a leader in its term. */
  predicate HandsOver(n: Node, e: Envelope) {
    n.role.Leader? && e.term == n.log.term && e.message.ClientRequest?
  }

  /** The request that an event hands to a leader, with the leader's term. */
  function Handed(c: Cluster, ev: Event): set<(Term, RequestID)> {
    match ev
    case Deliver(e, _) =>
      if e.to in c.nodes && HandsOver(c.nodes[e.to], e) then {(e.term, e.message.id)} else {}
    case Submit(i, id, _, _) =>
      if i in c.nodes && c.nodes[i].role.Leader? then {(c.nodes[i].log.term, id)} else {}
    case _ => {}
  }

  /** A run: the states passed through and the events between them. */
  datatype Run = Run(states: seq<Cluster>, events: seq<Event>)

  ghost predicate ValidRun(r: Run) {
    && |r.states| == |r.events| + 1
    && Init(r.states[0])
    && forall k :: 0 <= k < |r.events| ==> Next(r.states[k], r.events[k], r.states[k + 1])
  }
}
