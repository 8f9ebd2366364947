/** When a node panics. In no run, with any restarts, does a node meet a second leader of a
    term, a log it cannot splice, or an acknowledgement of entries it does not have. The panics
    that remain are exactly those on a response meant for the role the node had before. */
module RaftPanics {
  import opened Basics
  import opened RaftMessage
  import opened RaftLog
  import opened RaftNode
  import opened RaftHistory
  import opened RaftInvariant
  import opened RaftFollower
  import opened RaftSteps
  import opened RaftCluster
  import opened RaftRuns
  import opened RaftSafety

  /** What only the leader of a term may be sent in it. */
  predicate ForLeader(m: Message) {
    m.HeartbeatResponse? || m.AppendResponse? || m.ReadConfirmed?
  }

  /** A message of the node's own or a later term for a role the node does not have, or an
      append response that does not either accept or reject. */
  predicate Misdirected(n: Node, e: Envelope) {
    e.term >= n.log.term &&
    if e.term > n.log.term || n.role.Follower? then
      || ForLeader(e.message)
      || (e.message.ClientRequest? && e.from != n.id)
      || (e.message.ClientResponse? && (e.term > n.log.term || n.role.leader != Some(e.from)))
    else if n.role.Candidate? then ForLeader(e.message) || e.message.ClientResponse?
    else e.message.AppendResponse? && (e.message.matchIndex == 0 <==> e.message.rejectIndex == 0)
  }

  /** A misdirected message stops any node. */
  lemma MisdirectedStops(n: Node, e: Envelope, timeout: nat)
    requires Valid(n) && !n.role.Halted? && Misdirected(n, e)
    ensures Step(n, e, timeout).panic.Some?
  {
  }

  lemma FollowerPanic(n: Node, e: Envelope)
    requires Valid(n) && n.role.Follower? && e.term == n.log.term
    requires var p := FollowerStep(n, e).panic; p.Some? && AfterRestart(p.value)
    ensures Misdirected(n, e)
  {
  }

  lemma CandidatePanic(n: Node, e: Envelope, timeout: nat)
    requires Valid(n) && n.role.Candidate? && e.term == n.log.term && e.from != n.id
    requires var p := CandidateStep(n, e, timeout).panic; p.Some? && AfterRestart(p.value)
    ensures Misdirected(n, e)
  {
  }

  lemma LeaderPanic(n: Node, e: Envelope)
    requires Valid(n) && n.role.Leader? && e.term == n.log.term && !e.message.ClientResponse?
    requires var p := LeaderStep(n, e).panic; p.Some? && AfterRestart(p.value)
    ensures Misdirected(n, e)
  {
    hide Valid, LeaderClientRequest, LeaderConfirm, LeaderMatch, LeaderProbe, MaybeSendAppend;
    if e.message.ClientRequest? { RequestsGoOn(n, e); }
  }

  lemma RequestsGoOn(n: Node, e: Envelope)
    requires Valid(n) && n.role.Leader? && e.message.ClientRequest?
    ensures LeaderClientRequest(n, e).panic.None?
  {
    match e.message.request
    case WriteRequest(command) => assert LeaderWrite(n, e.from, e.message.id, command).panic.None?;
    case ReadRequest(command) => assert LeaderRead(n, e.from, e.message.id, command).panic.None?;
    case StatusRequest =>
  }

  lemma StepPanic(n: Node, e: Envelope, timeout: nat)
    requires Valid(n) && !n.role.Halted? && e.from != n.id
    requires n.role.Leader? && e.term == n.log.term ==> !e.message.ClientResponse?
    requires var p := Step(n, e, timeout).panic; p.Some? && AfterRestart(p.value)
    ensures Misdirected(n, e)
  {
    hide FollowerStep, CandidateStep, LeaderStep, AfterRestart;
    if e.term > n.log.term {
      var t := NewTerm(n, e.term, timeout);
      assert t.node.id == n.id && t.node.role.leader == None;
      FollowerPanic(t.node, e);
    } else {
      match n.role
      case Follower(_, _, _, _) => FollowerPanic(n, e);
      case Candidate(_, _, _) => CandidatePanic(n, e, timeout);
      case Leader(_, _, _, _, _) => LeaderPanic(n, e);
    }
  }

  /** A message that reaches a node stops it exactly if it is misdirected; and only a node
      that restarted, or that sends no entries, gets misdirected messages. */
  lemma StopsExactly(h: History, i: NodeID, n: Node, e: Envelope, timeout: nat)
    requires Good(h, i, n) && !n.role.Halted? && Arrives(h, i, e) && HandedOver(h, n, e) && e.from != i
    ensures Valid(n) && (Step(n, e, timeout).panic.Some? <==> Misdirected(n, e))
    ensures Step(n, e, timeout).panic.Some? ==> i in h.excused && AfterRestart(Step(n, e, timeout).panic.value)
  {
    var g := StepOk(h, i, n, e, timeout);
    assert Valid(n) && n.id == i;
    if n.role.Leader? && e.term == n.log.term { LeaderClientResponse(h, i, n, e); }
    hide *;
    OutcomePanic(h, g, i, Step(n, e, timeout));
    if Misdirected(n, e) {
      MisdirectedStops(n, e, timeout);
    } else if Step(n, e, timeout).panic.Some? {
      StepPanic(n, e, timeout);
    }
  }

  lemma OutcomePanic(h: History, g: History, i: NodeID, r: Effect)
    requires Outcome(h, g, i, r)
    ensures r.panic.Some? ==> AfterRestart(r.panic.value) && i in h.excused
  {
  }

  /** In every run, a delivery stops its node exactly if the message is misdirected, and then
      the node restarted before or was set to send no entries. No other panic is reachable: not
      a second leader in a term, a failed splice, or an index or sequence number from the
      future. */
  lemma PanicsExactly(r: Run, k: nat)
    requires ValidRun(r) && k < |r.events| && r.events[k].Deliver?
    ensures var e := r.events[k].envelope;
            && At(r, k, e.to) && Valid(NodeAt(r, k, e.to)) && !NodeAt(r, k, e.to).role.Halted?
            && var p := Step(NodeAt(r, k, e.to), e, r.events[k].timeout).panic;
            && (p.Some? <==> Misdirected(NodeAt(r, k, e.to), e))
            && (p.Some? ==> e.to in Excused(r) && AfterRestart(p.value))
  {
    var e := r.events[k].envelope;
    var hs := TraceOf(r);
    DeliveredTo(r, k);
    var h := HandedHistory(r, hs, k);
    hide *;
    StopsExactly(h, e.to, NodeAt(r, k, e.to), e, r.events[k].timeout);
  }

  /** A history in which the delivery at step k is on record. */
  lemma HandedHistory(r: Run, hs: seq<History>, k: nat) returns (h: History)
    requires ValidRun(r) && Trace(r, hs) && |hs| == |r.states| && k < |r.events| && r.events[k].Deliver?
    requires var e := r.events[k].envelope;
             At(r, k, e.to) && !NodeAt(r, k, e.to).role.Halted? && e in r.states[k].sent && e.from != e.to
    ensures var e, n := r.events[k].envelope, NodeAt(r, k, r.events[k].envelope.to);
            Good(h, e.to, n) && Arrives(h, e.to, e) && HandedOver(h, n, e) && h.excused == Excused(r)
  {
    var c, e := r.states[k], r.events[k].envelope;
    assert TraceAt(r, hs, k);
    h := RecordRequest(c, hs[k], {}, Handed(c, r.events[k]));
    NodeOf(c, h, e.to);
    assert MsgOk(h, e);
  }

  lemma DeliveredTo(r: Run, k: nat)
    requires ValidRun(r) && k < |r.events| && r.events[k].Deliver?
    ensures var e := r.events[k].envelope;
            At(r, k, e.to) && !NodeAt(r, k, e.to).role.Halted? && e in r.states[k].sent && e.from != e.to
  {
    StepOf(r, k);
  }

  // ---------------------------------------------------------------- restarts do stop nodes

  const CAREFUL := Options(4, 10)

  function Newborn(i: NodeID, peers: set<NodeID>): Node {
    Node(i, peers, CAREFUL, EMPTY_LOG, [], Follower(None, 0, 1, {}))
  }

  /** Two nodes that have just started. */
  const START := Cluster(map[1 := Newborn(1, {2}), 2 := Newborn(2, {1})], {})

  lemma StartIsInit()
    ensures Init(START)
  {
    assert START.nodes.Keys - {1} == {2} && START.nodes.Keys - {2} == {1};
    assert START.nodes[1] == NewNode(1, {2}, CAREFUL, EMPTY_LOG, [], 1).node;
    assert START.nodes[2] == NewNode(2, {1}, CAREFUL, EMPTY_LOG, [], 1).node;
  }

  const VOTED := LogState([], 1, Some(1), 0, 0)
  const CANDIDATE := Node(1, {2}, CAREFUL, VOTED, [], Candidate({1}, 0, 1))
  const VOTER := Node(2, {1}, CAREFUL, VOTED, [], Follower(None, 0, 1, {}))
  const CALL := Envelope(1, 1, 2, Campaign(0, 0))
  const VOTE := Envelope(2, 1, 1, CampaignResponse(true))
  const REPLY := Envelope(2, 1, 1, HeartbeatResponse(0, 0))

  lemma Campaigns()
    ensures Valid(Newborn(1, {2})) && Tick(Newborn(1, {2}), 1) == Effect(CANDIDATE, {CALL}, None)
  {
    var n := Newborn(1, {2});
    assert Broadcast(CANDIDATE, Campaign(0, 0)) == {CALL};
    assert AbortAll(n, {}) == {};
  }

  lemma Votes()
    ensures Valid(Newborn(2, {1})) && Step(Newborn(2, {1}), CALL, 1) == Effect(VOTER, {VOTE}, None)
  {
    assert AbortAll(Newborn(2, {1}), {}) == {};
  }

  lemma Wins() returns (l: Node, heartbeat: Envelope)
    ensures Valid(CANDIDATE) && var r := Step(CANDIDATE, VOTE, 1);
            && r.panic.None? && r.node == l && l.role.Leader? && l.id == 1 && l.peers == {2} && l.opts == CAREFUL &&
                l.log.term == 1
            && heartbeat in r.out && heartbeat.from == 1 && heartbeat.to == 2 && heartbeat.term == 1
            && heartbeat.message.Heartbeat? && heartbeat.message.hbLastIndex == 1 && heartbeat.message.hbReadSeq == 0
            && heartbeat.message.hbCommitIndex <= 1
  {
    var n := CANDIDATE.(role := Candidate({1, 2}, 0, 1));
    assert CANDIDATE.role.votes + {2} == {1, 2} && |{1, 2}| == 2;
    assert Step(CANDIDATE, VOTE, 1) == IntoLeader(n);
    var p := Promote(n);
    var c := MaybeCommitAndApply(p.node);
    var h := SendHeartbeat(c.node);
    CommitKeepsReads(p.node);
    l := h.node;
    heartbeat := Envelope(1, 1, 2, Heartbeat(|c.node.log.entries|, c.node.log.commitIndex, c.node.role.readSeq));
  }

  lemma CommitKeepsReads(n: Node)
    requires Valid(n) && n.role.Leader?
    ensures var r := MaybeCommitAndApply(n);
            r.node.log.entries == n.log.entries && r.node.role.readSeq == n.role.readSeq
  {
  }

  lemma RepliesNo(heartbeat: Envelope)
    requires heartbeat.from == 1 && heartbeat.to == 2 && heartbeat.term == 1
    requires heartbeat.message.Heartbeat? && heartbeat.message.hbLastIndex == 1 && heartbeat.message.hbReadSeq == 0
    requires heartbeat.message.hbCommitIndex <= 1
    ensures Valid(VOTER) && var r := Step(VOTER, heartbeat, 1); r.panic.None? && r.out == {REPLY}
  {
  }

  lemma Comes(l: Node)
    requires Valid(l) && l.id == 1 && l.peers == {2} && l.log.term == 1
    ensures var r := NewNode(l.id, l.peers, l.opts, Recovered(l.log, 0), l.applied[..0], 1);
            && r.panic.None? && Valid(r.node) && !r.node.role.Halted? && Misdirected(r.node, REPLY)
  {
  }

  /** Node 1 campaigns and node 2 votes for it. */
  lemma Opening() returns (c1: Cluster, c2: Cluster)
    ensures Next(START, Clock(1, 1), c1) && Next(c1, Deliver(CALL, 1), c2)
    ensures c2.nodes == map[1 := CANDIDATE, 2 := VOTER] && VOTE in c2.sent
  {
    Campaigns();
    Votes();
    hide Step, Tick, Valid;
    c1 := Install(START, 1, Tick(START.nodes[1], 1));
    assert c1.nodes[2] == Newborn(2, {1}) && CALL in c1.sent;
    hide Newborn;
    c2 := DeliverNext(c1, CALL, 1);
  }

  /** Node 1 leads, and node 2 answers its heartbeat. */
  lemma Middle(c2: Cluster) returns (c3: Cluster, c4: Cluster, l: Node, heartbeat: Envelope)
    requires c2.nodes == map[1 := CANDIDATE, 2 := VOTER] && VOTE in c2.sent
    ensures Next(c2, Deliver(VOTE, 1), c3) && Next(c3, Deliver(heartbeat, 1), c4)
    ensures 1 in c4.nodes && c4.nodes[1] == l && REPLY in c4.sent
    ensures Valid(l) && l.role.Leader? && l.id == 1 && l.peers == {2} && l.log.term == 1
  {
    l, heartbeat := Wins();
    RepliesNo(heartbeat);
    assert CANDIDATE.role.Candidate? && VOTER.role.Follower?;
    hide Step, Valid, Next;
    c3 := DeliverNext(c2, VOTE, 1);
    c4 := DeliverNext(c3, heartbeat, 1);
  }

  /** Node 1 is elected by node 2, and its heartbeat is answered. */
  lemma LeadsAndHears() returns (r: Run, c: Cluster, l: Node)
    ensures ValidRun(r) && |r.events| == 4 && |r.states| == 5 && r.states[|r.events|] == c && r.states[0] == START
    ensures 1 in c.nodes && c.nodes[1] == l && REPLY in c.sent
    ensures Valid(l) && l.role.Leader? && l.id == 1 && l.peers == {2} && l.log.term == 1
  {
    hide *;
    StartIsInit();
    var c1, c2 := Opening();
    var c3, heartbeat;
    c3, c, l, heartbeat := Middle(c2);
    r := FourSteps(START, Clock(1, 1), c1, Deliver(CALL, 1), c2, Deliver(VOTE, 1), c3, Deliver(heartbeat, 1), c);
  }

  lemma FourSteps(c0: Cluster, e0: Event, c1: Cluster, e1: Event, c2: Cluster, e2: Event, c3: Cluster, e3: Event,
      c4: Cluster)
    returns (r: Run)
    requires Init(c0) && Next(c0, e0, c1) && Next(c1, e1, c2) && Next(c2, e2, c3) && Next(c3, e3, c4)
    ensures r == Run([c0, c1, c2, c3, c4], [e0, e1, e2, e3]) && ValidRun(r)
  {
    hide Init, Next;
    r := Run([c0, c1, c2, c3, c4], [e0, e1, e2, e3]);
  }

  /** A leader that restarts in its term is stopped by the answer to a heartbeat it sent
      before. */
  lemma RestartedLeaderStops() returns (r: Run)
    ensures ValidRun(r) && |r.events| == 6 && r.events[4].Restart? && r.events[5].Deliver?
    ensures 1 in r.states[6].nodes && r.states[6].nodes[1].role.Halted?
    ensures forall i :: i in r.states[0].nodes ==> r.states[0].nodes[i].opts.maxAppendEntries > 0
  {
    hide ValidRun, Valid, Next, Runs, Misdirected;
    var r4, c4, l := LeadsAndHears();
    var c5 := Returns(c4, l);
    var c6 := Stopped(c5);
    var r5 := Extend(r4, Restart(1, 0, 0, 1), c5);
    r := Extend(r5, Deliver(REPLY, 1), c6);
  }

  lemma Returns(c: Cluster, l: Node) returns (c': Cluster)
    requires 1 in c.nodes && c.nodes[1] == l && REPLY in c.sent
    requires Valid(l) && l.role.Leader? && l.id == 1 && l.peers == {2} && l.log.term == 1
    ensures Next(c, Restart(1, 0, 0, 1), c') && Runs(c', 1) && Misdirected(c'.nodes[1], REPLY) && REPLY in c'.sent
  {
    Comes(l);
    hide Valid, NewNode, Misdirected, Recovered;
    c' := Install(c, 1, NewNode(l.id, l.peers, l.opts, Recovered(l.log, 0), l.applied[..0], 1));
  }

  lemma Stopped(c: Cluster) returns (c': Cluster)
    requires Runs(c, 1) && Misdirected(c.nodes[1], REPLY) && REPLY in c.sent
    ensures Next(c, Deliver(REPLY, 1), c') && 1 in c'.nodes && c'.nodes[1].role.Halted?
  {
    hide Step, Valid, Misdirected;
    MisdirectedStops(c.nodes[1], REPLY, 1);
    c' := DeliverNext(c, REPLY, 1);
  }
}
