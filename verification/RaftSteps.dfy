/** Every step of a node keeps the invariant, whatever message or event causes it. */
module RaftSteps {
  import opened Basics
  import opened RaftMessage
  import opened RaftLog
  import opened RaftNode
  import opened RaftHistory
  import opened RaftInvariant
  import opened RaftFollower
  import opened RaftReplica
  import opened RaftLeader
  import opened RaftCluster

  /** A message a node may be handed: one sent by a peer, or a local client's request, whose
      command is then on record. */
  ghost predicate Arrives(h: History, i: NodeID, e: Envelope) {
    && e.to == i
    && i in h.ids
    && if e.from == i then
         && e.message.ClientRequest?
         && (e.message.id, e.message.request) in h.submitted
       else MsgOk(h, e)
  }

  /** A request that a leader is handed is on record as such. */
  ghost predicate HandedOver(h: History, n: Node, e: Envelope) {
    HandsOver(n, e) ==> (n.log.term, e.message.id) in h.handed
  }

  /** A step that stops the node, which is possible only where `AfterRestart` says. */
  lemma Stops(h: History, i: NodeID, n: Node, p: Panic)
    requires Good(h, i, n) && i in h.excused && AfterRestart(p)
    ensures Outcome(h, h, i, Effect(n, {}, Some(p)))
  {
    GrowRefl(h, i, n.log.term);
  }

  /** The node answers with one message, and the history does not change. */
  lemma Answers(h: History, i: NodeID, n: Node, e: Envelope)
    requires Good(h, i, n) && MsgOk(h, e)
    ensures Outcome(h, h, i, Effect(n, {e}, None))
  {
    GrowRefl(h, i, n.log.term);
  }

  // ---------------------------------------------------------------- leader

  lemma LeaderPeer(h: History, i: NodeID, n: Node, e: Envelope)
    requires Good(h, i, n) && n.role.Leader? && Arrives(h, i, e) && e.from != i && e.term == n.log.term
    ensures e.from in n.peers && MsgOk(h, e) && Valid(n)
    ensures Leads(h, n.log.term, i) && h.reigns[n.log.term].log == n.log.entries
    ensures h.reigns[n.log.term].readSeq == n.role.readSeq
  {
  }

  lemma AcksBounded(h: History, t: Term, v: NodeID)
    requires HistOk(h)
    ensures (t, v) in h.acks ==> t in h.reigns && h.acks[(t, v)] <= |h.reigns[t].log|
    ensures (t, v) in h.readAcks ==> t in h.reigns && h.readAcks[(t, v)] <= h.reigns[t].readSeq
  {
    if (t, v) in h.acks { assert AckOk(h, t, v); }
  }

  lemma LeaderHeartbeatResponseCases(n: Node, e: Envelope)
    requires Valid(n) && n.role.Leader? && e.message.HeartbeatResponse? && e.from in n.peers
    requires e.message.hbMatchIndex <= |n.log.entries| && e.message.hbConfirmSeq <= n.role.readSeq
    ensures var a := LeaderConfirm(n, e.from, e.message.hbConfirmSeq);
            var b := if e.message.hbMatchIndex == 0 then LeaderProbe(a.node, e.from, |n.log.entries|, true)
                else Effect(a.node, {}, None);
            var c := LeaderMatch(b.node, e.from, e.message.hbMatchIndex);
            LeaderHeartbeatResponse(n, e) == Effect(c.node, (a.out + b.out) + c.out, c.panic)
  {
  }

  lemma LeaderHeartbeatResponseOk(h: History, i: NodeID, n: Node, e: Envelope) returns (g: History)
    requires Good(h, i, n) && n.role.Leader? && Arrives(h, i, e) && e.from != i && e.term == n.log.term
    requires e.message.HeartbeatResponse?
    ensures Outcome(h, g, i, LeaderHeartbeatResponse(n, e))
  {
    var m := e.message;
    LeaderPeer(h, i, n, e);
    AcksBounded(h, n.log.term, e.from);
    LeaderHeartbeatResponseCases(n, e);
    assert m.hbMatchIndex > 0 ==> (n.log.term, e.from) in h.acks && m.hbMatchIndex <= h.acks[(n.log.term, e.from)];
    assert m.hbConfirmSeq > 0 ==>
        (n.log.term, e.from) in h.readAcks && m.hbConfirmSeq <= h.readAcks[(n.log.term, e.from)];
    hide *;
    LeaderConfirmOk(h, i, n, e.from, m.hbConfirmSeq);
    var a := LeaderConfirm(n, e.from, m.hbConfirmSeq);
    var ab := ProbeAfter(h, i, n, a, e.from, m.hbMatchIndex == 0);
    g := MatchAfter(h, i, ab, e.from, m.hbMatchIndex);
  }

  /** A probe after another effect of the leader, if the heartbeat did not match. */
  lemma ProbeAfter(h: History, i: NodeID, n: Node, a: Effect, peer: NodeID, probe: bool) returns (ab: Effect)
    requires Outcome(h, h, i, a) && a.panic.None? && a.node.role.Leader? && a.node.log == n.log
    requires a.node.peers == n.peers && peer in n.peers
    ensures Valid(a.node)
    ensures var b := if probe then LeaderProbe(a.node, peer, |n.log.entries|, true) else Effect(a.node, {}, None);
            ab == Effect(b.node, a.out + b.out, b.panic)
    ensures Outcome(h, h, i, ab) && ab.node.role.Leader? && ab.node.log == n.log && ab.node.peers == n.peers
  {
    OutcomeParts(h, h, i, a);
    if probe {
      LeaderProbeOk(h, i, a.node, peer, |n.log.entries|, true);
      var b := LeaderProbe(a.node, peer, |n.log.entries|, true);
      assert b.node.log == n.log && b.node.peers == n.peers;
      ab := Effect(b.node, a.out + b.out, b.panic);
      hide *;
      Chain(h, h, h, i, a, b);
    } else {
      ab := Effect(a.node, a.out + {}, None);
      assert a.out + {} == a.out;
      assert a == ab;
    }
  }

  lemma MatchAfter(h: History, i: NodeID, ab: Effect, peer: NodeID, k: Index) returns (g: History)
    requires Outcome(h, h, i, ab) && ab.node.role.Leader? && peer in ab.node.peers && k <= |ab.node.log.entries|
    requires k > 0 ==> (ab.node.log.term, peer) in h.acks && k <= h.acks[(ab.node.log.term, peer)]
    ensures Valid(ab.node)
    ensures var c := LeaderMatch(ab.node, peer, k); Outcome(h, g, i, Effect(c.node, ab.out + c.out, c.panic))
  {
    OutcomeParts(h, h, i, ab);
    g := LeaderMatchOk(h, i, ab.node, peer, k);
    var c := LeaderMatch(ab.node, peer, k);
    hide *;
    Chain(h, h, g, i, ab, c);
  }

  lemma LeaderAppendResponseOk(h: History, i: NodeID, n: Node, e: Envelope) returns (g: History)
    requires Good(h, i, n) && n.role.Leader? && Arrives(h, i, e) && e.from != i && e.term == n.log.term
    requires e.message.AppendResponse?
    ensures Outcome(h, g, i, LeaderAppendResponse(n, e))
  {
    var m := e.message;
    LeaderPeer(h, i, n, e);
    AcksBounded(h, n.log.term, e.from);
    g := h;
    if m.matchIndex > 0 {
      g := LeaderAccepted(h, i, n, e.from, m.matchIndex);
      assert var a := LeaderMatch(n, e.from, m.matchIndex);
             var b := MaybeSendAppend(a.node, e.from, false);
             LeaderAppendResponse(n, e) == Effect(b.node, a.out + b.out, b.panic);
    } else if m.rejectIndex > 0 {
      if m.rejectIndex <= n.role.progress[e.from].matchIndex {
        Unchanged(h, i, n);
      } else {
        LeaderProbeOk(h, i, n, e.from, m.rejectIndex, false);
      }
    } else {
      Stops(h, i, n, InvalidAppendResponse);
    }
  }

  lemma LeaderAccepted(h: History, i: NodeID, n: Node, peer: NodeID, k: Index) returns (g: History)
    requires Good(h, i, n) && n.role.Leader? && peer in n.peers && k <= |n.log.entries|
    requires k > 0 ==> (n.log.term, peer) in h.acks && k <= h.acks[(n.log.term, peer)]
    ensures var a := LeaderMatch(n, peer, k);
            && a.node.role.Leader? && peer in a.node.peers && Valid(a.node)
            && var b := MaybeSendAppend(a.node, peer, false);
            && Outcome(h, g, i, Effect(b.node, a.out + b.out, b.panic))
  {
    g := LeaderMatchOk(h, i, n, peer, k);
    var a := LeaderMatch(n, peer, k);
    OutcomeParts(h, g, i, a);
    hide *;
    MaybeSendAppendOk(g, i, a.node, peer, false);
    var b := MaybeSendAppend(a.node, peer, false);
    Chain(h, g, g, i, a, b);
  }

  lemma LeaderReadConfirmedOk(h: History, i: NodeID, n: Node, e: Envelope)
    requires Good(h, i, n) && n.role.Leader? && Arrives(h, i, e) && e.from != i && e.term == n.log.term
    requires e.message.ReadConfirmed?
    ensures Outcome(h, h, i, LeaderReadConfirmed(n, e))
  {
    LeaderPeer(h, i, n, e);
    LeaderConfirmOk(h, i, n, e.from, e.message.seqNo);
    assert LeaderReadConfirmed(n, e) == LeaderConfirm(n, e.from, e.message.seqNo);
  }

  // ---------------------------------------------------------------- client requests at the leader

  /** The node a request came from is one the leader may answer. */
  lemma ClientServed(h: History, i: NodeID, n: Node, e: Envelope)
    requires Good(h, i, n) && n.role.Leader? && Arrives(h, i, e) && e.term == n.log.term && e.message.ClientRequest?
    requires HandedOver(h, n, e)
    ensures Served(h, n.log.term, i, e.from)
    ensures Taken(h, n.log.term, e.message.id, e.message.request)
  {
  }

  /** Remembering the client of the entry just proposed. */
  lemma RegisterWrite(h: History, i: NodeID, n: Node, from: NodeID, id: RequestID)
    requires Good(h, i, n) && n.role.Leader? && n.log.entries != []
    requires Leads(h, n.log.term, i) && WriteState(h, n.log.term, |n.log.entries|, Write(from, id))
    ensures Good(h, i, n.(role := n.role.(writes := n.role.writes[|n.log.entries| := Write(from, id)])))
  {
    var x := n.(role := n.role.(writes := n.role.writes[|n.log.entries| := Write(from, id)]));
    LeaderTweak(h, i, n, x.role);
  }

  lemma LeaderWriteOk(h: History, i: NodeID, n: Node, from: NodeID, id: RequestID, command: Command)
    returns (g: History)
    requires Good(h, i, n) && n.role.Leader? && Served(h, n.log.term, i, from)
    requires Taken(h, n.log.term, id, WriteRequest(command))
    ensures Outcome(h, g, i, LeaderWrite(n, from, id, command))
  {
    var p := ProposeAs(n, Some(command));
    g := ProposeOk(h, i, n, Some(command), Some(id));
    var x := p.node.(role := p.node.role.(writes := p.node.role.writes[|p.node.log.entries| := Write(from, id)]));
    RegisterWrite(g, i, p.node, from, id);
    RegisteredOutcome(h, g, i, p, x);
    if |n.peers| == 0 {
      assert var c := MaybeCommitAndApply(x);
        LeaderWrite(n, from, id, command) == Effect(c.node, p.out + c.out, c.panic);
      g := CommitAfter(h, g, i, Effect(x, p.out, None));
    } else {
      assert LeaderWrite(n, from, id, command) == Effect(x, p.out, None);
    }
  }

  lemma RegisteredOutcome(h: History, g: History, i: NodeID, p: Effect, x: Node)
    requires Outcome(h, g, i, p) && Good(g, i, x) && x.log == p.node.log
    ensures Outcome(h, g, i, Effect(x, p.out, None))
  {
  }

  function QueuedRead(n: Node, from: NodeID, id: RequestID, command: Command): Effect
    requires n.role.Leader?
  {
    var q := n.role.readSeq + 1;
    Effect(n.(role := n.role.(readSeq := q, readQueue := n.role.readQueue + [Read(q, from, id, command)])),
           Broadcast(n, ReadConfirm(q)), None)
  }

  lemma LeaderReadCases(n: Node, from: NodeID, id: RequestID, command: Command)
    requires Valid(n) && n.role.Leader?
    ensures var x := QueuedRead(n, from, id, command);
            && x.node.role.Leader? && Valid(x.node)
            && LeaderRead(n, from, id, command) ==
                 if |n.peers| == 0 then
                   Effect(MaybeRead(x.node).node, x.out + MaybeRead(x.node).out, MaybeRead(x.node).panic)
                 else x
  {
  }

  lemma LeaderReadOk(h: History, i: NodeID, n: Node, from: NodeID, id: RequestID, command: Command) returns (g: History)
    requires Good(h, i, n) && n.role.Leader? && Served(h, n.log.term, i, from)
    requires Taken(h, n.log.term, id, ReadRequest(command))
    ensures Outcome(h, g, i, LeaderRead(n, from, id, command))
  {
    GoodLeader(h, i, n);
    LeaderReadCases(n, from, id, command);
    hide *;
    g := QueueReadOk(h, i, n, from, id, command);
    if |n.peers| == 0 {
      MaybeReadAfter(h, g, i, QueuedRead(n, from, id, command));
    }
  }

  /** The leader has taken on one more read. */
  ghost function Asked(h: History, t: Term, ask: Ask): Reign
    requires t in h.reigns
  {
    var q := h.reigns[t].readSeq + 1;
    h.reigns[t].(readSeq := q, asks := h.reigns[t].asks[q := ask])
  }

  lemma AskedHistory(h: History, i: NodeID, t: Term, ask: Ask)
    requires HistOk(h) && Leads(h, t, i) && ask.applied == h.reigns[t].applied
    requires Taken(h, t, ask.id, ReadRequest(ask.command))
    requires forall s :: (s, i) in h.votes ==> s <= t
    ensures Counts(h.reigns[t], Asked(h, t, ask), t)
    ensures var g := Replaced(h, t, Asked(h, t, ask)); Grow(h, g, i, t) && HistOk(g)
  {
    var r := Asked(h, t, ask);
    var g := Replaced(h, t, r);
    assert ReignOk(h, t);
    forall j | j in r.writes ensures WrittenAt(g, t, j) { assert WrittenAt(h, t, j); }
    forall q | q in r.asks ensures AskedAt(g, t, q) { if q in h.reigns[t].asks { assert AskedAt(h, t, q); } }
    forall q | q in h.reigns[t].asks ensures r.asks[q] == h.reigns[t].asks[q] { assert AskedAt(h, t, q); }
    ReplacedHistory(h, i, t, r);
  }

  lemma QueueReadOk(h: History, i: NodeID, n: Node, from: NodeID, id: RequestID, command: Command) returns (g: History)
    requires Good(h, i, n) && n.role.Leader? && Served(h, n.log.term, i, from)
    requires Taken(h, n.log.term, id, ReadRequest(command))
    ensures Outcome(h, g, i, QueuedRead(n, from, id, command))
  {
    hide *;
    LeaderFacts(h, i, n);
    var t, q, ask := n.log.term, n.role.readSeq + 1, Ask(id, command, |n.applied|);
    var r := QueuedRead(n, from, id, command);
    g := Replaced(h, t, Asked(h, t, ask));
    AskedHistory(h, i, t, ask);
    ReplacedDurable(h, i, n.log, n.applied, Asked(h, t, ask));
    QueueFacts(h, i, n, from, id, command);
    QueueRole(h, g, i, n, r.node, ask);
    ReadMailOk(g, i, n, q);
    Conclude(h, g, i, r);
  }

  lemma QueueFacts(h: History, i: NodeID, n: Node, from: NodeID, id: RequestID, command: Command)
    requires Good(h, i, n) && n.role.Leader? && n.log.term in h.reigns
    ensures var t, q, ask := n.log.term, n.role.readSeq + 1, Ask(id, command, |n.applied|);
            var g, r := Replaced(h, t, Asked(h, t, ask)), QueuedRead(n, from, id, command);
            && Leads(g, t, i) && g.ids == h.ids && q <= g.reigns[t].readSeq
            && r.node.log == n.log && r.node.applied == n.applied && r.out == Broadcast(n, ReadConfirm(q)) &&
                r.panic.None?
            && r.node == n.(role := n.role.(readSeq := q, readQueue := n.role.readQueue + [Read(q, from, id, command)]))
  {
  }

  lemma ReadMailOk(g: History, i: NodeID, n: Node, q: nat)
    requires Leads(g, n.log.term, i) && n.id == i && i in g.ids && n.peers <= g.ids && q <= g.reigns[n.log.term].readSeq
    ensures MsgsOk(g, Broadcast(n, ReadConfirm(q)))
  {
  }

  lemma QueueRole(h: History, g: History, i: NodeID, n: Node, x: Node, ask: Ask)
    requires Good(h, i, n) && n.role.Leader? && g == Replaced(h, n.log.term, Asked(h, n.log.term, ask))
    requires ask.applied == |n.applied|
    requires x.role.Leader? && |x.role.readQueue| == |n.role.readQueue| + 1
    requires x == n.(role := n.role.(readSeq := n.role.readSeq + 1, readQueue := x.role.readQueue))
    requires forall j :: 0 <= j < |n.role.readQueue| ==> x.role.readQueue[j] == n.role.readQueue[j]
    requires var r := x.role.readQueue[|n.role.readQueue|];
             r.seqNo == n.role.readSeq + 1 && r.id == ask.id && r.command == ask.command &&
                 Served(h, n.log.term, i, r.from)
    ensures RoleState(g, x) && Valid(x) && x.id == i && x.peers == g.ids - {i}
  {
    var t := n.log.term;
    assert ReignOk(h, t);
    forall p | p in x.role.progress ensures ProgressState(g, t, p, x.role.progress[p]) {
      assert ProgressState(h, t, p, n.role.progress[p]);
    }
    forall j | j in x.role.writes ensures WriteState(g, t, j, x.role.writes[j]) {
      assert WriteState(h, t, j, n.role.writes[j]);
    }
    forall j | 0 <= j < |x.role.readQueue| ensures ReadState(g, t, |x.applied|, x.role.readQueue[j]) {
      if j < |n.role.readQueue| {
        assert ReadState(h, t, |n.applied|, n.role.readQueue[j]) && AskedAt(h, t, n.role.readQueue[j].seqNo);
      }
    }
  }

  lemma LeaderClientRequestOk(h: History, i: NodeID, n: Node, e: Envelope) returns (g: History)
    requires Good(h, i, n) && n.role.Leader? && Arrives(h, i, e) && e.term == n.log.term && e.message.ClientRequest?
    requires HandedOver(h, n, e)
    ensures Outcome(h, g, i, LeaderClientRequest(n, e))
  {
    ClientServed(h, i, n, e);
    GoodLeader(h, i, n);
    match e.message.request
    case WriteRequest(command) =>
      assert LeaderClientRequest(n, e) == LeaderWrite(n, e.from, e.message.id, command);
      hide *;
      g := LeaderWriteOk(h, i, n, e.from, e.message.id, command);
    case ReadRequest(command) =>
      assert LeaderClientRequest(n, e) == LeaderRead(n, e.from, e.message.id, command);
      hide *;
      g := LeaderReadOk(h, i, n, e.from, e.message.id, command);
    case StatusRequest =>
      g := h;
      assert LeaderClientRequest(n, e) == Effect(n, {Respond(n, e.from, e.message.id, Status(n))}, None);
      hide *;
      StatusAnswered(h, i, n, e.from, e.message.id);
  }

  lemma StatusAnswered(h: History, i: NodeID, n: Node, from: NodeID, id: RequestID)
    requires Good(h, i, n) && n.role.Leader? && Served(h, n.log.term, i, from)
    ensures Outcome(h, h, i, Effect(n, {Respond(n, from, id, Status(n))}, None))
  {
    var status := Respond(n, from, id, Status(n));
    assert MsgOk(h, status);
    hide *;
    Answers(h, i, n, status);
  }

  lemma LeaderStepOk(h: History, i: NodeID, n: Node, e: Envelope) returns (g: History)
    requires Good(h, i, n) && n.role.Leader? && Arrives(h, i, e) && e.term == n.log.term && HandedOver(h, n, e)
    ensures Outcome(h, g, i, LeaderStep(n, e))
  {
    g := h;
    if e.message.ClientRequest? {
      g := LeaderClientRequestOk(h, i, n, e);
    } else {
      LeaderPeer(h, i, n, e);
      match e.message
      case HeartbeatResponse(_, _) => g := LeaderHeartbeatResponseOk(h, i, n, e);
      case AppendResponse(_, _) => g := LeaderAppendResponseOk(h, i, n, e);
      case ReadConfirmed(_) => LeaderReadConfirmedOk(h, i, n, e);
      case Campaign(_, _) => Answers(h, i, n, Mail(n, e.from, CampaignResponse(false)));
      case CampaignResponse(_) => Unchanged(h, i, n);
      case ClientResponse(_, _) => LeaderClientResponse(h, i, n, e);
      case Heartbeat(_, _, _) => assert false;
      case Append(_, _, _) => assert false;
      case ReadConfirm(_) => assert false;
    }
  }

  /** A leader is never sent a client response. */
  lemma LeaderClientResponse(h: History, i: NodeID, n: Node, e: Envelope)
    requires Good(h, i, n) && n.role.Leader? && Arrives(h, i, e) && e.from != i && e.term == n.log.term
    ensures !e.message.ClientResponse?
  {
  }

  // ---------------------------------------------------------------- follower

  /** A follower is not the leader of its term, unless it restarted. */
  lemma NotLeading(h: History, i: NodeID, n: Node)
    requires Good(h, i, n) && !n.role.Leader? && Leads(h, n.log.term, i)
    ensures i in h.excused
  {
  }

  lemma FollowerClientRequestOk(h: History, i: NodeID, n: Node, e: Envelope)
    requires Good(h, i, n) && n.role.Follower? && Arrives(h, i, e) && e.term == n.log.term && e.message.ClientRequest?
    ensures Outcome(h, h, i, FollowerClientRequest(n, e))
  {
    if e.from != i {
      NotLeading(h, i, n);
      Stops(h, i, n, ForeignClientRequest);
    } else if n.role.leader.Some? {
      var x := n.(role := n.role.(forwarded := n.role.forwarded + {e.message.id}));
      LeaderIsNode(h, n.log.term, n.role.leader.value);
      assert Good(h, i, x);
      assert FollowerClientRequest(n, e) == Effect(x, {Mail(n, n.role.leader.value, e.message)}, None);
      Answers(h, i, x, Mail(n, n.role.leader.value, e.message));
    } else {
      Answers(h, i, n, Respond(n, e.from, e.message.id, Abort));
    }
  }

  lemma FollowerClientResponseOk(h: History, i: NodeID, n: Node, e: Envelope)
    requires Good(h, i, n) && n.role.Follower? && Arrives(h, i, e) && e.from != i && e.term == n.log.term
    requires e.message.ClientResponse?
    ensures Outcome(h, h, i, FollowerClientResponse(n, e))
  {
    if n.role.leader != Some(e.from) {
      Stops(h, i, n, ForeignClientResponse);
    } else if e.message.id in n.role.forwarded {
      var x := n.(role := n.role.(forwarded := n.role.forwarded - {e.message.id}));
      assert Good(h, i, x);
      var m := Respond(n, n.id, e.message.id, e.message.response);
      assert FollowerClientResponse(n, e) == Effect(x, {m}, None);
      assert MsgOk(h, m);
      hide *;
      Answers(h, i, x, m);
    } else {
      Unchanged(h, i, n);
    }
  }

  lemma FollowerStepOk(h: History, i: NodeID, n: Node, e: Envelope) returns (g: History)
    requires Good(h, i, n) && n.role.Follower? && Arrives(h, i, e) && e.term == n.log.term
    ensures Outcome(h, g, i, FollowerStep(n, e))
  {
    var x := if n.role.leader == Some(e.from) then n.(role := n.role.(leaderSeen := 0)) else n;
    assert Good(h, i, x);
    g := h;
    if e.message.ClientRequest? {
      FollowerClientRequestOk(h, i, x, e);
    } else {
      assert e.from != i && MsgOk(h, e);
      match e.message
      case Heartbeat(_, _, _) => g := FollowerHeartbeatOk(h, i, x, e);
      case Append(_, _, _) => g := FollowerAppendOk(h, i, x, e);
      case ReadConfirm(_) => g := FollowerReadOk(h, i, x, e);
      case Campaign(_, _) => g := FollowerCampaignOk(h, i, x, e);
      case ClientResponse(_, _) => FollowerClientResponseOk(h, i, x, e);
      case CampaignResponse(_) => Unchanged(h, i, x);
      case HeartbeatResponse(_, _) => NotLeading(h, i, x); Stops(h, i, x, UnexpectedMessage);
      case AppendResponse(_, _) => NotLeading(h, i, x); Stops(h, i, x, UnexpectedMessage);
      case ReadConfirmed(_) => NotLeading(h, i, x); Stops(h, i, x, UnexpectedMessage);
    }
  }

  // ---------------------------------------------------------------- candidate

  lemma CandidateVoteOk(h: History, i: NodeID, n: Node, e: Envelope, timeout: nat) returns (g: History)
    requires Good(h, i, n) && n.role.Candidate? && Arrives(h, i, e) && e.from != i && e.term == n.log.term
    requires e.message == CampaignResponse(true)
    ensures Outcome(h, g, i, CandidateStep(n, e, timeout))
  {
    var x := n.(role := n.role.(votes := n.role.votes + {e.from}));
    assert Good(h, i, x);
    if |x.role.votes| >= QuorumSize(n) {
      assert h.ids == n.peers + {i};
      assert Majority(x.role.votes, h.ids);
      assert CandidateStep(n, e, timeout) == IntoLeader(x);
      hide *;
      g := IntoLeaderOk(h, i, x);
    } else {
      g := h;
      Unchanged(h, i, x);
    }
  }

  /** Losing an election: the candidate follows the leader of its term. */
  lemma ConcedeOk(h: History, i: NodeID, n: Node, from: NodeID, timeout: nat) returns (g: History)
    requires Good(h, i, n) && n.role.Candidate? && Leads(h, n.log.term, from) && from != i
    ensures Grow(h, g, i, n.log.term) && Good(g, i, n.(role := Follower(Some(from), 0, timeout, {})))
  {
    var x := n.(role := Follower(Some(from), 0, timeout, {}));
    g := Following(h, n.log.term, i);
    LeaderIsNode(h, n.log.term, from);
    ConcedeRole(h, i, n, from, timeout);
    hide *;
    NodeFacts(h, i, n);
    FollowingOk(h, i, n);
    GoodFrom(g, i, x);
  }

  lemma ConcedeRole(h: History, i: NodeID, n: Node, from: NodeID, timeout: nat)
    requires Good(h, i, n) && n.role.Candidate? && Leads(h, n.log.term, from) && from != i && from in h.ids
    ensures var x := n.(role := Follower(Some(from), 0, timeout, {}));
            RoleState(Following(h, n.log.term, i), x) && Valid(x)
  {
  }

  lemma CandidateLostOk(h: History, i: NodeID, n: Node, e: Envelope, timeout: nat) returns (g: History)
    requires Good(h, i, n) && n.role.Candidate? && Arrives(h, i, e) && e.from != i && e.term == n.log.term
    requires Leads(h, n.log.term, e.from)
    ensures Outcome(h, g, i, CandidateLost(n, e, timeout))
  {
    var t, x := n.log.term, n.(role := Follower(Some(e.from), 0, timeout, {}));
    LeaderIsNode(h, t, e.from);
    assert CandidateLost(n, e, timeout) == FollowerStep(x, e);
    var f := ConcedeOk(h, i, n, e.from, timeout);
    MsgGrows(h, f, i, t, e);
    assert Arrives(f, i, e);
    g := FollowerStepOk(f, i, x, e);
    hide *;
    After(h, f, g, i, FollowerStep(x, e));
  }

  lemma After(h: History, f: History, g: History, i: NodeID, r: Effect)
    requires Grow(h, f, i, r.node.log.term) && Outcome(f, g, i, r)
    ensures Outcome(h, g, i, r)
  {
    OutcomeParts(f, g, i, r);
    GrowTrans(h, f, g, i, r.node.log.term);
  }

  /** Messages only the leader of the candidate's term can have sent. */
  lemma LeaderMessage(h: History, i: NodeID, e: Envelope)
    requires Arrives(h, i, e) && e.from != i
    requires e.message.Heartbeat? || e.message.Append? || e.message.ReadConfirm?
    ensures Leads(h, e.term, e.from)
  {
  }

  /** Messages that stop a candidate, or cannot reach it. */
  lemma CandidateUnexpected(h: History, i: NodeID, n: Node, e: Envelope)
    requires Good(h, i, n) && n.role.Candidate? && Arrives(h, i, e) && e.from != i && e.term == n.log.term
    requires e.message.ClientResponse? || e.message.HeartbeatResponse? || e.message.AppendResponse? ||
        e.message.ReadConfirmed?
    ensures Outcome(h, h, i, Effect(n, {}, Some(UnexpectedMessage)))
  {
    assert i in h.excused;
    Stops(h, i, n, UnexpectedMessage);
  }

  lemma CandidateStepOk(h: History, i: NodeID, n: Node, e: Envelope, timeout: nat) returns (g: History)
    requires Good(h, i, n) && n.role.Candidate? && Arrives(h, i, e) && e.term == n.log.term
    ensures Outcome(h, g, i, CandidateStep(n, e, timeout))
  {
    g := h;
    if e.from == i {
      Answers(h, i, n, Respond(n, e.from, e.message.id, Abort));
    } else if e.message.CampaignResponse? {
      if e.message.vote { g := CandidateVoteOk(h, i, n, e, timeout); } else { Unchanged(h, i, n); }
    } else if e.message.Campaign? {
      Answers(h, i, n, Mail(n, e.from, CampaignResponse(false)));
    } else if e.message.Heartbeat? || e.message.Append? || e.message.ReadConfirm? {
      LeaderMessage(h, i, e);
      assert CandidateStep(n, e, timeout) == CandidateLost(n, e, timeout);
      g := CandidateLostOk(h, i, n, e, timeout);
    } else if e.message.ClientRequest? {
      assert false;
    } else {
      CandidateUnexpected(h, i, n, e);
    }
  }

  // ---------------------------------------------------------------- any node

  lemma FutureStepOk(h: History, i: NodeID, n: Node, e: Envelope, timeout: nat) returns (g: History)
    requires Good(h, i, n) && !n.role.Halted? && Arrives(h, i, e) && e.term > n.log.term
    ensures Outcome(h, g, i, Step(n, e, timeout))
  {
    NewTermOk(h, i, n, e.term, timeout);
    var a := NewTerm(n, e.term, timeout);
    g := FollowerStepOk(h, i, a.node, e);
    var b := FollowerStep(a.node, e);
    assert Step(n, e, timeout) == Effect(b.node, a.out + b.out, b.panic);
    hide *;
    GrowRefl(h, i, b.node.log.term);
    Chain(h, h, g, i, a, b);
  }

  lemma StepOk(h: History, i: NodeID, n: Node, e: Envelope, timeout: nat) returns (g: History)
    requires Good(h, i, n) && !n.role.Halted? && Arrives(h, i, e) && HandedOver(h, n, e)
    ensures Outcome(h, g, i, Step(n, e, timeout))
  {
    if e.term < n.log.term {
      g := h;
      Unchanged(h, i, n);
    } else if e.term > n.log.term {
      g := FutureStepOk(h, i, n, e, timeout);
    } else {
      match n.role
      case Follower(_, _, _, _) => g := FollowerStepOk(h, i, n, e);
      case Candidate(_, _, _) => g := CandidateStepOk(h, i, n, e, timeout);
      case Leader(_, _, _, _, _) => g := LeaderStepOk(h, i, n, e);
    }
  }

  lemma LeaderTickOk(h: History, i: NodeID, n: Node, timeout: nat)
    requires Good(h, i, n) && n.role.Leader?
    ensures Outcome(h, h, i, Tick(n, timeout))
  {
    var since := n.role.sinceHeartbeat;
    var x := n.(role := n.role.(sinceHeartbeat := since + 1));
    LeaderTweak(h, i, n, x.role);
    assert Tick(n, timeout) == if since + 1 >= n.opts.heartbeatInterval then SendHeartbeat(x) else Effect(x, {}, None);
    hide *;
    if since + 1 >= n.opts.heartbeatInterval { HeartbeatOk(h, i, x); } else { Unchanged(h, i, x); }
  }

  lemma FollowerTickOk(h: History, i: NodeID, n: Node, timeout: nat) returns (g: History)
    requires Good(h, i, n) && n.role.Follower?
    ensures Outcome(h, g, i, Tick(n, timeout))
  {
    g := h;
    var seen := n.role.leaderSeen;
    var x := n.(role := n.role.(leaderSeen := seen + 1));
    assert Good(h, i, x);
    assert Tick(n, timeout) == if seen + 1 >= n.role.electionTimeout then IntoCandidate(x, timeout)
        else Effect(x, {}, None);
    hide *;
    if seen + 1 >= n.role.electionTimeout { g := IntoCandidateOk(h, i, x, timeout); } else { Unchanged(h, i, x); }
  }

  lemma CandidateTickOk(h: History, i: NodeID, n: Node, timeout: nat) returns (g: History)
    requires Good(h, i, n) && n.role.Candidate?
    ensures Outcome(h, g, i, Tick(n, timeout))
  {
    g := h;
    var duration := n.role.electionDuration;
    var x := n.(role := n.role.(electionDuration := duration + 1));
    assert Good(h, i, x);
    assert Tick(n, timeout) == if duration + 1 >= n.role.electionTimeout then StartCampaign(x, timeout)
        else Effect(x, {}, None);
    hide *;
    if duration + 1 >= n.role.electionTimeout { g := StartCampaignOk(h, i, x, timeout); } else { Unchanged(h, i, x); }
  }

  lemma TickOk(h: History, i: NodeID, n: Node, timeout: nat) returns (g: History)
    requires Good(h, i, n) && !n.role.Halted?
    ensures Outcome(h, g, i, Tick(n, timeout))
  {
    hide *;
    g := h;
    match n.role
    case Follower(_, _, _, _) => g := FollowerTickOk(h, i, n, timeout);
    case Candidate(_, _, _) => g := CandidateTickOk(h, i, n, timeout);
    case Leader(_, _, _, _, _) => LeaderTickOk(h, i, n, timeout);
  }

  // ---------------------------------------------------------------- restart

  lemma RecoveredDurable(h: History, i: NodeID, l: LogState, applied: seq<Entry>, commitIndex: Index, k: nat)
    requires HistOk(h) && Durable(h, i, l, applied) && commitIndex <= l.commitIndex && k <= |applied|
    ensures var r := Recovered(l, commitIndex);
            Durable(h, i, r, ApplyCommitted(r, applied[..k]))
  {
    var r := Recovered(l, commitIndex);
    assert r.entries[..commitIndex] == l.entries[..l.commitIndex][..commitIndex];
    SafePrefix(h, r.entries[..commitIndex], l.entries[..l.commitIndex], l.term);
    SafePrefix(h, applied[..k], applied, l.term);
    ApplySafe(h, r, applied[..k], l.term);
  }

  lemma NewNodeCases(id: NodeID, opts: Options, log: LogState, applied: seq<Entry>, timeout: nat)
    requires WellFormed(log)
    ensures var n := Node(id, {}, opts, log, ApplyCommitted(log, applied), Follower(None, 0, timeout, {}));
            var c := IntoCandidate(n, timeout);
            var l := IntoLeader(c.node);
            NewNode(id, {}, opts, log, applied, timeout) == Effect(l.node, c.out + l.out, l.panic)
  {
  }

  /** A single-node cluster elects its node when it starts. */
  lemma SelfElectedOk(h: History, i: NodeID, n: Node, timeout: nat) returns (g: History)
    requires Good(h, i, n) && n.role.Follower? && n.peers == {}
    ensures var c := IntoCandidate(n, timeout);
            var l := IntoLeader(c.node);
            Outcome(h, g, i, Effect(l.node, c.out + l.out, l.panic))
  {
    var f := IntoCandidateOk(h, i, n, timeout);
    var c := IntoCandidate(n, timeout);
    assert f.ids == {i};
    assert Majority(c.node.role.votes, f.ids);
    OutcomeParts(h, f, i, c);
    g := IntoLeaderOk(f, i, c.node);
    hide *;
    Chain(h, f, g, i, c, IntoLeader(c.node));
  }

  lemma NewAloneOk(h: History, i: NodeID, opts: Options, log: LogState, applied: seq<Entry>, timeout: nat)
    returns (g: History)
    requires WellFormed(log)
    requires Good(h, i, Node(i, {}, opts, log, ApplyCommitted(log, applied), Follower(None, 0, timeout, {})))
    ensures Outcome(h, g, i, NewNode(i, {}, opts, log, applied, timeout))
  {
    hide NewNode, Good, Outcome;
    NewNodeCases(i, opts, log, applied, timeout);
    g := SelfElectedOk(h, i, Node(i, {}, opts, log, ApplyCommitted(log, applied), Follower(None, 0, timeout, {})),
        timeout);
  }

  lemma RestartOk(h: History, i: NodeID, n: Node, commitIndex: Index, k: nat, timeout: nat) returns (g: History)
    requires Good(h, i, n) && commitIndex <= n.log.commitIndex && k <= |n.applied| && i in h.excused
    ensures Outcome(h, g, i, NewNode(i, n.peers, n.opts, Recovered(n.log, commitIndex), n.applied[..k], timeout))
  {
    var log, applied := Recovered(n.log, commitIndex), n.applied[..k];
    RecoveredDurable(h, i, n.log, n.applied, commitIndex, k);
    var x := Node(i, n.peers, n.opts, log, ApplyCommitted(log, applied), Follower(None, 0, timeout, {}));
    assert Good(h, i, x);
    if n.peers == {} {
      g := NewAloneOk(h, i, n.opts, log, applied, timeout);
    } else {
      g := h;
      assert NewNode(i, n.peers, n.opts, log, applied, timeout) == Effect(x, {}, None);
      Unchanged(h, i, x);
    }
  }
}
