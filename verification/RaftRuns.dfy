/** Every run has a history at every moment, and histories only grow along it. */
module RaftRuns {
  import opened Basics
  import opened RaftMessage
  import opened RaftLog
  import opened RaftNode
  import opened RaftHistory
  import opened RaftInvariant
  import opened RaftFollower
  import opened RaftSteps
  import opened RaftCluster

  // ---------------------------------------------------------------- the invariant of a cluster

  ghost predicate NodesOk(h: History, c: Cluster) {
    forall i {:trigger NodeOk(h, i, c.nodes[i])} :: i in c.nodes ==> NodeOk(h, i, c.nodes[i])
  }

  ghost predicate Inv(c: Cluster, h: History) {
    c.nodes.Keys == h.ids && HistOk(h) && NodesOk(h, c) && MsgsOk(h, c.sent)
  }

  /** The term of a node. */
  function TermOf(c: Cluster, i: NodeID): Term
    requires i in c.nodes
  {
    c.nodes[i].log.term
  }

  /** A node's acknowledgements of a term rise only while its own term has not passed it. */
  ghost predicate CountsLater(c: Cluster, a: map<(Term, NodeID), nat>, b: map<(Term, NodeID), nat>) {
    forall t, v :: (t, v) in b ==>
      || ((t, v) in a && b[(t, v)] == a[(t, v)])
      || (v in c.nodes && TermOf(c, v) <= t)
  }

  ghost predicate TermsLater(c: Cluster, c': Cluster) {
    c.nodes.Keys == c'.nodes.Keys && forall i :: i in c.nodes ==> TermOf(c, i) <= TermOf(c', i)
  }

  /** A leader acts in its term only while its own term has not passed it. */
  ghost predicate ReignsLater(c: Cluster, h: History, g: History) {
    forall t :: t in g.reigns ==>
      || (t in h.reigns && g.reigns[t] == h.reigns[t])
      || (g.reigns[t].leader in c.nodes && TermOf(c, g.reigns[t].leader) <= t)
  }

  /** Everything recorded stays recorded, terms never fall, and a node leads and acknowledges
      entries and reads in a term only while its own term has not passed it. */
  ghost predicate Later(c: Cluster, h: History, c': Cluster, g: History) {
    && HistLater(h, g)
    && ReignsLater(c, h, g)
    && TermsLater(c, c')
    && c.sent <= c'.sent
    && CountsLater(c, h.acks, g.acks)
    && CountsLater(c, h.readAcks, g.readAcks)
  }

  lemma LaterRefl(c: Cluster, h: History)
    ensures Later(c, h, c, h)
  {
  }

  lemma LaterTrans(a: Cluster, x: History, b: Cluster, y: History, c: Cluster, z: History)
    requires Later(a, x, b, y) && Later(b, y, c, z)
    ensures Later(a, x, c, z)
  {
    HistLaterTrans(x, y, z);
  }

  // ---------------------------------------------------------------- one step

  lemma InstallOk(c: Cluster, h: History, i: NodeID, r: Effect, g: History)
    requires Inv(c, h) && i in c.nodes && Outcome(h, g, i, r) && TermOf(c, i) <= r.node.log.term
    ensures Inv(Install(c, i, r), g) && Later(c, h, Install(c, i, r), g)
  {
    InstallNodes(c, h, i, r, g);
    MsgsGrow(h, g, i, r.node.log.term, c.sent);
    WidensLater(h, g, i, r.node.log.term);
    InstallLater(c, h, i, r, g);
    hide NodesOk, HistOk, HistLater, Grow, NodeOk, MsgOk, CountsLater, ReignsLater;
  }

  lemma InstallLater(c: Cluster, h: History, i: NodeID, r: Effect, g: History)
    requires i in c.nodes && Grow(h, g, i, r.node.log.term) && TermOf(c, i) <= r.node.log.term
    ensures TermsLater(c, Install(c, i, r)) && ReignsLater(c, h, g)
    ensures CountsLater(c, h.acks, g.acks) && CountsLater(c, h.readAcks, g.readAcks)
  {
  }

  lemma InstallNodes(c: Cluster, h: History, i: NodeID, r: Effect, g: History)
    requires HistOk(h) && NodesOk(h, c) && i in c.nodes && Outcome(h, g, i, r)
    ensures NodesOk(g, Install(c, i, r))
  {
    var c', t := Install(c, i, r), r.node.log.term;
    if r.panic.Some? { HaltedOk(g, i, r.node); }
    assert NodeOk(g, i, c'.nodes[i]);
    hide HistOk, Grow, NodeOk;
    forall j | j in c'.nodes ensures NodeOk(g, j, c'.nodes[j]) {
      if j != i {
        assert NodeOk(h, j, c.nodes[j]);
        NodeGrows(h, g, i, t, j, c.nodes[j]);
      }
    }
  }

  lemma HaltedOk(h: History, i: NodeID, n: Node)
    requires NodeOk(h, i, n) && i in h.excused
    ensures NodeOk(h, i, n.(role := Halted))
  {
  }

  /** The requests an event submits. */
  function Submits(ev: Event): set<(RequestID, Request)> {
    if ev.Submit? then {(ev.request, ev.body)} else {}
  }

  lemma UnusedId(ids: set<NodeID>) returns (i: NodeID)
    ensures i !in ids
    ensures forall j :: j in ids ==> j < i
  {
    if ids == {} {
      i := 0;
    } else {
      var j :| j in ids;
      var k := UnusedId(ids - {j});
      i := Max(j + 1, k);
      assert forall x :: x in ids ==> x == j || x in ids - {j};
    }
  }

  /** A request may be put on record at any time. */
  lemma RecordRequest(c: Cluster, h: History, asked: set<(RequestID, Request)>, handed: set<(Term, RequestID)>)
    returns (g: History)
    requires Inv(c, h)
    ensures Inv(c, g) && Later(c, h, c, g)
    ensures g == h.(submitted := h.submitted + asked, handed := h.handed + handed)
  {
    g := h.(submitted := h.submitted + asked, handed := h.handed + handed);
    var i := UnusedId(h.ids);
    assert Widens(h, g, i, 0);
    StrangerRecords(h, i);
    assert g.votes == h.votes && g.acks == h.acks && g.readAcks == h.readAcks && g.reigns == h.reigns;
    HistGrows(h, g, i, 0);
    RecordedNodes(c, h, g, i);
    MsgsGrow(h, g, i, 0, c.sent);
    WidensLater(h, g, i, 0);
  }

  lemma RecordedNodes(c: Cluster, h: History, g: History, i: NodeID)
    requires HistOk(h) && NodesOk(h, c) && Widens(h, g, i, 0) && i !in c.nodes
    ensures NodesOk(g, c)
  {
    hide HistOk, Widens, NodeOk;
    forall j | j in c.nodes ensures NodeOk(g, j, c.nodes[j]) {
      assert NodeOk(h, j, c.nodes[j]);
      NodeGrows(h, g, i, 0, j, c.nodes[j]);
    }
  }

  /** A history knows nothing of a node outside the cluster. */
  lemma StrangerRecords(h: History, i: NodeID)
    requires HistOk(h) && i !in h.ids
    ensures forall t: Term :: (t, i) !in h.votes
    ensures forall t: Term :: (t, i) !in h.acks
    ensures forall v: NodeID :: (0, v) !in h.readAcks
    ensures 0 !in h.reigns
  {
    forall t: Term ensures (t, i) !in h.votes { RecordedIds(h, t, i); }
    forall t: Term ensures (t, i) !in h.acks { RecordedIds(h, t, i); }
    RecordedIds(h, 0, i);
  }

  lemma RecordedIds(h: History, t: Term, v: NodeID)
    requires HistOk(h)
    ensures (t, v) in h.votes ==> v in h.ids
    ensures (t, v) in h.acks ==> v in h.ids
    ensures t in h.reigns ==> t > 0
  {
    if (t, v) in h.votes { assert VoteOk(h, t, v); }
    if (t, v) in h.acks { assert AckOk(h, t, v); }
    if t in h.reigns { assert ReignOk(h, t); }
  }

  lemma NodeOf(c: Cluster, h: History, i: NodeID)
    requires Inv(c, h) && i in c.nodes
    ensures Good(h, i, c.nodes[i]) && c.nodes[i].id == i
  {
    assert NodeOk(h, i, c.nodes[i]);
  }

  lemma NextOk(c: Cluster, h: History, ev: Event, c': Cluster) returns (g: History)
    requires Inv(c, h) && Next(c, ev, c') && (ev.Restart? ==> ev.id in h.excused)
    ensures Inv(c', g) && Later(c, h, c', g)
    ensures g.submitted == h.submitted + Submits(ev) && g.handed == h.handed + Handed(c, ev)
  {
    match ev
    case Deliver(e, timeout) => g := DeliverOk(c, h, e, timeout);
    case Clock(i, timeout) => g := ClockOk(c, h, i, timeout);
    case Submit(i, id, body, timeout) => g := SubmitOk(c, h, i, id, body, timeout);
    case Restart(i, commitIndex, k, timeout) => g := RestartedOk(c, h, i, commitIndex, k, timeout);
  }

  lemma ClockOk(c: Cluster, h: History, i: NodeID, timeout: nat) returns (g: History)
    requires Inv(c, h) && Runs(c, i)
    ensures var c' := Install(c, i, Tick(c.nodes[i], timeout));
            Inv(c', g) && Later(c, h, c', g) && Recorded(h, g, {}, {})
  {
    NodeOf(c, h, i);
    g := TickOk(h, i, c.nodes[i], timeout);
    hide *;
    StepDone(c, h, i, Tick(c.nodes[i], timeout), g);
  }

  lemma RestartedOk(c: Cluster, h: History, i: NodeID, commitIndex: Index, k: nat, timeout: nat) returns (g: History)
    requires Inv(c, h) && i in c.nodes && Valid(c.nodes[i]) && i in h.excused
    requires commitIndex <= c.nodes[i].log.commitIndex && k <= |c.nodes[i].applied|
    ensures var n := c.nodes[i];
            var c' := Install(c, i, NewNode(n.id, n.peers, n.opts, Recovered(n.log, commitIndex), n.applied[..k],
                timeout));
            Inv(c', g) && Later(c, h, c', g) && Recorded(h, g, {}, {})
  {
    NodeOf(c, h, i);
    var n := c.nodes[i];
    g := RestartOk(h, i, n, commitIndex, k, timeout);
    var r := NewNode(i, n.peers, n.opts, Recovered(n.log, commitIndex), n.applied[..k], timeout);
    hide *;
    StepDone(c, h, i, r, g);
  }

  ghost predicate Recorded(h: History, g: History, asked: set<(RequestID, Request)>, handed: set<(Term, RequestID)>) {
    g.submitted == h.submitted + asked && g.handed == h.handed + handed
  }

  lemma StepDone(c: Cluster, h: History, i: NodeID, r: Effect, g: History)
    requires Inv(c, h) && i in c.nodes && Outcome(h, g, i, r) && c.nodes[i].log.term <= r.node.log.term
    ensures Inv(Install(c, i, r), g) && Later(c, h, Install(c, i, r), g) && Recorded(h, g, {}, {})
  {
    InstallOk(c, h, i, r, g);
    OutcomeGrow(h, g, i, r);
    hide Inv, Later, Outcome, Good;
  }

  lemma SubmitOk(c: Cluster, h: History, i: NodeID, id: RequestID, body: Request, timeout: nat) returns (g: History)
    requires Inv(c, h) && Runs(c, i)
    ensures var e := Envelope(i, c.nodes[i].log.term, i, ClientRequest(id, body));
            var c' := Install(c, i, Step(c.nodes[i], e, timeout));
            Inv(c', g) && Later(c, h, c', g) && Recorded(h, g, {(id, body)}, Handed(c, Submit(i, id, body, timeout)))
  {
    var e := Envelope(i, c.nodes[i].log.term, i, ClientRequest(id, body));
    var f := RecordRequest(c, h, {(id, body)}, Handed(c, Submit(i, id, body, timeout)));
    NodeOf(c, f, i);
    assert Arrives(f, i, e) && HandedOver(f, c.nodes[i], e);
    g := StepOk(f, i, c.nodes[i], e, timeout);
    hide *;
    StepDone(c, f, i, Step(c.nodes[i], e, timeout), g);
    LaterTrans(c, h, c, f, Install(c, i, Step(c.nodes[i], e, timeout)), g);
    RecordedThen(h, f, g, {(id, body)}, Handed(c, Submit(i, id, body, timeout)));
  }

  lemma RecordedThen(h: History, f: History, g: History, asked: set<(RequestID, Request)>,
      handed: set<(Term, RequestID)>)
    requires f == h.(submitted := h.submitted + asked, handed := h.handed + handed) && Recorded(f, g, {}, {})
    ensures Recorded(h, g, asked, handed)
  {
  }

  lemma DeliverOk(c: Cluster, h: History, e: Envelope, timeout: nat) returns (g: History)
    requires Inv(c, h) && e in c.sent && e.from != e.to && Runs(c, e.to)
    ensures var c' := Install(c, e.to, Step(c.nodes[e.to], e, timeout));
            Inv(c', g) && Later(c, h, c', g) && Recorded(h, g, {}, Handed(c, Deliver(e, timeout)))
  {
    var f := RecordRequest(c, h, {}, Handed(c, Deliver(e, timeout)));
    NodeOf(c, f, e.to);
    assert MsgOk(f, e) && Arrives(f, e.to, e) && HandedOver(f, c.nodes[e.to], e);
    g := StepOk(f, e.to, c.nodes[e.to], e, timeout);
    hide *;
    StepDone(c, f, e.to, Step(c.nodes[e.to], e, timeout), g);
    LaterTrans(c, h, c, f, Install(c, e.to, Step(c.nodes[e.to], e, timeout)), g);
    RecordedThen(h, f, g, {}, Handed(c, Deliver(e, timeout)));
  }

  // ---------------------------------------------------------------- the start

  ghost function NoHistory(ids: set<NodeID>, submitted: set<(RequestID, Request)>, excused: set<NodeID>): History {
    History(ids, map[], map[], map[], {}, map[], submitted, {}, excused)
  }

  lemma NoHistoryOk(ids: set<NodeID>, submitted: set<(RequestID, Request)>, excused: set<NodeID>, i: NodeID,
      opts: Options, timeout: nat)
    requires i in ids && (opts.maxAppendEntries == 0 ==> i in excused)
    ensures Good(NoHistory(ids, submitted, excused), i,
        Node(i, ids - {i}, opts, EMPTY_LOG, [], Follower(None, 0, timeout, {})))
  {
  }

  /** A cluster of one elects itself as it starts. */
  lemma InitAlone(c: Cluster, i: NodeID, submitted: set<(RequestID, Request)>, excused: set<NodeID>)
    returns (h: History)
    requires Init(c) && c.nodes.Keys == {i} && (c.nodes[i].opts.maxAppendEntries == 0 ==> i in excused)
    ensures Inv(c, h) && h.excused == excused && h.submitted == submitted && h.handed == {}
  {
    hide NewNode, Good, NodeOk, Outcome, Inv;
    assert i in c.nodes && Fresh(c, i);
    var opts := c.nodes[i].opts;
    assert c.nodes.Keys - {i} == {} == {i} - {i};
    var timeout: nat :| c.nodes[i] == NewNode(i, {}, opts, EMPTY_LOG, [], timeout).node;
    var h0 := NoHistory({i}, submitted, excused);
    NoHistoryOk({i}, submitted, excused, i, opts, timeout);
    h := NewAloneOk(h0, i, opts, EMPTY_LOG, [], timeout);
    var r := NewNode(i, {}, opts, EMPTY_LOG, [], timeout);
    hide *;
    OutcomeGrow(h0, h, i, r);
    AloneInv(c, h0, h, i, r);
  }

  lemma AloneInv(c: Cluster, h0: History, h: History, i: NodeID, r: Effect)
    requires Grow(h0, h, i, r.node.log.term) && Good(h, i, r.node) && h0.ids == {i} == c.nodes.Keys
    requires c.nodes[i] == r.node && c.sent == {}
    ensures Inv(c, h) && h.excused == h0.excused && h.submitted == h0.submitted && h.handed == h0.handed
  {
  }

  lemma InitNode(c: Cluster, i: NodeID, submitted: set<(RequestID, Request)>, excused: set<NodeID>)
    requires Init(c) && i in c.nodes && c.nodes.Keys != {i} && (c.nodes[i].opts.maxAppendEntries == 0 ==> i in excused)
    ensures NodeOk(NoHistory(c.nodes.Keys, submitted, excused), i, c.nodes[i])
  {
    hide NewNode, Good, NodeOk;
    assert Fresh(c, i);
    var opts, peers := c.nodes[i].opts, c.nodes.Keys - {i};
    var timeout: nat :| c.nodes[i] == NewNode(i, peers, opts, EMPTY_LOG, [], timeout).node;
    NoHistoryOk(c.nodes.Keys, submitted, excused, i, opts, timeout);
    assert c.nodes.Keys == peers + {i};
    NewAmongPeers(i, peers, opts, timeout);
    GoodNode(NoHistory(c.nodes.Keys, submitted, excused), i, c.nodes[i]);
  }

  lemma NewAmongPeers(i: NodeID, peers: set<NodeID>, opts: Options, timeout: nat)
    requires peers != {} && i !in peers
    ensures NewNode(i, peers, opts, EMPTY_LOG, [], timeout).node ==
        Node(i, peers, opts, EMPTY_LOG, [], Follower(None, 0, timeout, {}))
  {
  }

  lemma GoodNode(h: History, i: NodeID, n: Node)
    requires Good(h, i, n)
    ensures NodeOk(h, i, n)
  {
  }

  lemma InitOk(c: Cluster, submitted: set<(RequestID, Request)>, excused: set<NodeID>) returns (h: History)
    requires Init(c)
    requires forall i :: i in c.nodes && c.nodes[i].opts.maxAppendEntries == 0 ==> i in excused
    ensures Inv(c, h) && h.excused == excused && h.submitted == submitted && h.handed == {}
  {
    hide Fresh, NodeOk;
    if i :| i in c.nodes && c.nodes.Keys == {i} {
      h := InitAlone(c, i, submitted, excused);
    } else {
      h := NoHistory(c.nodes.Keys, submitted, excused);
      forall i | i in c.nodes ensures NodeOk(h, i, c.nodes[i]) { InitNode(c, i, submitted, excused); }
    }
  }

  // ---------------------------------------------------------------- whole runs

  /** Node i restarts at some point of the run. */
  ghost predicate Restarts(r: Run, i: NodeID) {
    exists k :: 0 <= k < |r.events| && r.events[k].Restart? && r.events[k].id == i
  }

  /** Nodes that restart, or may send appends without entries. */
  ghost function Excused(r: Run): set<NodeID>
    requires ValidRun(r)
  {
    set i | i in r.states[0].nodes && (Restarts(r, i) || r.states[0].nodes[i].opts.maxAppendEntries == 0)
  }

  /** The requests submitted before state k. */
  ghost function Submitted(r: Run, k: nat): set<(RequestID, Request)>
    requires k <= |r.events|
  {
    set j | 0 <= j < k && r.events[j].Submit? :: (r.events[j].request, r.events[j].body)
  }

  /** The requests handed to leaders, by term, before state k. */
  ghost function HandedBefore(r: Run, k: nat): set<(Term, RequestID)>
    requires k <= |r.events| && k <= |r.states|
  {
    if k == 0 then {} else HandedBefore(r, k - 1) + Handed(r.states[k - 1], r.events[k - 1])
  }

  ghost predicate TraceAt(r: Run, hs: seq<History>, k: nat)
    requires ValidRun(r) && k < |hs| <= |r.states|
  {
    && Inv(r.states[k], hs[k]) && hs[k].excused == Excused(r)
    && hs[k].submitted == Submitted(r, k) && hs[k].handed == HandedBefore(r, k)
  }

  ghost predicate LaterAt(r: Run, hs: seq<History>, a: nat, b: nat)
    requires ValidRun(r) && a < |hs| <= |r.states| && b < |hs|
  {
    Later(r.states[a], hs[a], r.states[b], hs[b])
  }

  /** Histories of the first states of a run. */
  ghost predicate Trace(r: Run, hs: seq<History>)
    requires ValidRun(r)
  {
    && 0 < |hs| <= |r.states|
    && (forall k {:trigger TraceAt(r, hs, k)} :: 0 <= k < |hs| ==> TraceAt(r, hs, k))
    && (forall a, b {:trigger LaterAt(r, hs, a, b)} :: 0 <= a <= b < |hs| ==> LaterAt(r, hs, a, b))
  }

  lemma StartTrace(r: Run) returns (h: History)
    requires ValidRun(r)
    ensures Trace(r, [h])
  {
    StartOf(r);
    hide Inv, Later, ValidRun, Excused, Init, Submitted, HandedBefore;
    h := InitOk(r.states[0], {}, Excused(r));
    LaterRefl(r.states[0], h);
    hide *;
    OneTrace(r, h);
  }

  lemma OneTrace(r: Run, h: History)
    requires ValidRun(r) && |r.states| > 0 && Inv(r.states[0], h) && Later(r.states[0], h, r.states[0], h)
    requires h.excused == Excused(r) && h.submitted == Submitted(r, 0) && h.handed == HandedBefore(r, 0)
    ensures Trace(r, [h])
  {
    hide Inv, Later, ValidRun, Excused, Submitted, HandedBefore;
    assert TraceAt(r, [h], 0) && LaterAt(r, [h], 0, 0);
  }

  lemma StartOf(r: Run)
    requires ValidRun(r)
    ensures |r.states| == |r.events| + 1 && Init(r.states[0]) && Submitted(r, 0) == {} && HandedBefore(r, 0) == {}
    ensures var c := r.states[0]; forall i :: i in c.nodes && c.nodes[i].opts.maxAppendEntries == 0 ==> i in Excused(r)
  {
  }

  lemma ExtendTrace(r: Run, hs: seq<History>) returns (g: History)
    requires ValidRun(r) && Trace(r, hs) && |hs| < |r.states|
    ensures Trace(r, hs + [g])
  {
    var k := |hs| - 1;
    StepOf(r, k);
    assert TraceAt(r, hs, k);
    hide Inv, Later, Next, ValidRun, Trace;
    RestartExcused(r, hs, k);
    g := NextOk(r.states[k], hs[k], r.events[k], r.states[k + 1]);
    SubmittedStep(r, k);
    LaterExcused(r.states[k], hs[k], r.states[k + 1], g);
    LongerTrace(r, hs, g);
  }

  lemma LaterExcused(c: Cluster, h: History, c': Cluster, g: History)
    requires Later(c, h, c', g)
    ensures g.excused == h.excused && c.nodes.Keys == c'.nodes.Keys
  {
  }

  lemma StepOf(r: Run, k: nat)
    requires ValidRun(r) && k < |r.events|
    ensures |r.states| == |r.events| + 1 && Next(r.states[k], r.events[k], r.states[k + 1])
  {
  }

  lemma SubmittedStep(r: Run, k: nat)
    requires k < |r.events|
    ensures Submitted(r, k + 1) == Submitted(r, k) + Submits(r.events[k])
  {
    if r.events[k].Submit? { assert (r.events[k].request, r.events[k].body) in Submitted(r, k + 1); }
  }

  lemma LongerTrace(r: Run, hs: seq<History>, g: History)
    requires ValidRun(r) && Trace(r, hs) && |hs| < |r.states| == |r.events| + 1
    requires Inv(r.states[|hs|], g) && g.excused == Excused(r)
    requires g.submitted == Submitted(r, |hs|) && g.handed == HandedBefore(r, |hs|)
    requires Later(r.states[|hs| - 1], hs[|hs| - 1], r.states[|hs|], g)
    ensures Trace(r, hs + [g])
  {
    hide Inv, Later, ValidRun;
    var hs', k := hs + [g], |hs| - 1;
    forall j | 0 <= j < |hs'| ensures TraceAt(r, hs', j) {
      if j < |hs| { assert TraceAt(r, hs, j); }
    }
    forall a, b | 0 <= a <= b < |hs'| ensures LaterAt(r, hs', a, b) {
      if b < |hs| {
        assert LaterAt(r, hs, a, b);
      } else if a == b {
        LaterRefl(r.states[b], g);
      } else {
        assert LaterAt(r, hs, a, k);
        LaterTrans(r.states[a], hs[a], r.states[k], hs[k], r.states[b], g);
      }
    }
  }

  lemma RestartExcused(r: Run, hs: seq<History>, k: nat)
    requires ValidRun(r) && Trace(r, hs) && k < |hs| && k < |r.events| && TraceAt(r, hs, k)
    requires Next(r.states[k], r.events[k], r.states[k + 1])
    ensures r.events[k].Restart? ==> r.events[k].id in hs[k].excused
  {
    assert LaterAt(r, hs, 0, k);
    hide Inv, TraceAt;
    LaterExcused(r.states[0], hs[0], r.states[k], hs[k]);
    if r.events[k].Restart? {
      assert Restarts(r, r.events[k].id) && r.events[k].id in r.states[k].nodes;
      assert r.events[k].id in Excused(r);
    }
    assert TraceAt(r, hs, k);
    TraceExcused(r, hs, k);
  }

  lemma TraceExcused(r: Run, hs: seq<History>, k: nat)
    requires ValidRun(r) && k < |hs| <= |r.states| && TraceAt(r, hs, k)
    ensures hs[k].excused == Excused(r)
  {
  }

  /** Every run has histories. */
  lemma TraceOf(r: Run) returns (hs: seq<History>)
    requires ValidRun(r)
    ensures Trace(r, hs) && |hs| == |r.states|
  {
    var h := StartTrace(r);
    hs := [h];
    while |hs| < |r.states|
      invariant Trace(r, hs)
      decreases |r.states| - |hs|
    {
      var g := ExtendTrace(r, hs);
      hs := hs + [g];
    }
  }

  // ---------------------------------------------------------------- longer runs

  /** One more step of a run. */
  lemma Extend(r: Run, ev: Event, c: Cluster) returns (s: Run)
    requires ValidRun(r) && Next(r.states[|r.events|], ev, c)
    ensures s == Run(r.states + [c], r.events + [ev]) && ValidRun(s) && s.states[|s.events|] == c
  {
    s := Run(r.states + [c], r.events + [ev]);
    hide Init, Next;
    forall k | 0 <= k < |s.events| ensures Next(s.states[k], s.events[k], s.states[k + 1]) {
      if k < |r.events| { assert Next(r.states[k], r.events[k], r.states[k + 1]); }
    }
  }

  lemma DeliverNext(c: Cluster, e: Envelope, timeout: nat) returns (c': Cluster)
    requires e in c.sent && e.from != e.to && Runs(c, e.to)
    ensures c' == Install(c, e.to, Step(c.nodes[e.to], e, timeout)) && Next(c, Deliver(e, timeout), c')
  {
    c' := Install(c, e.to, Step(c.nodes[e.to], e, timeout));
  }
}
