/** Catch-up in runs: from every reachable state, a bounded number of ticks and deliveries
    between a leader and a node of no later term makes the node's log equal to the leader's. */
module RaftConverge {
  import opened Basics
  import opened RaftMessage
  import opened RaftLog
  import opened RaftNode
  import opened RaftHistory
  import opened RaftInvariant
  import opened RaftFollower
  import opened RaftReplica
  import opened RaftLeader
  import opened RaftSteps
  import opened RaftCluster
  import opened RaftRuns
  import opened RaftSafety
  import opened RaftPanics
  import opened RaftCatchUp

  // ---------------------------------------------------------------- continuing a run

  /** The state a run has come to. */
  ghost function End(r: Run): Cluster
    requires ValidRun(r)
  {
    r.states[|r.events|]
  }

  /** s continues r by at most n ticks and deliveries: nothing is submitted and nobody
      restarts. */
  ghost predicate Continued(r: Run, s: Run, n: nat) {
    && ValidRun(r) && ValidRun(s)
    && Prefix(r.states, s.states) && Prefix(r.events, s.events)
    && |s.events| <= |r.events| + n
    && forall k :: |r.events| <= k < |s.events| ==> s.events[k].Clock? || s.events[k].Deliver?
  }

  lemma ContinuedTrans(a: Run, b: Run, c: Run, m: nat, n: nat)
    requires Continued(a, b, m) && Continued(b, c, n)
    ensures Continued(a, c, m + n)
  {
    hide ValidRun;
    PrefixTransitive(a.states, b.states, c.states);
    PrefixTransitive(a.events, b.events, c.events);
    forall k | |a.events| <= k < |c.events| ensures c.events[k].Clock? || c.events[k].Deliver? {
      if k < |b.events| { assert c.events[k] == b.events[k]; }
    }
  }

  lemma ContinuedMore(r: Run, s: Run, m: nat, n: nat)
    requires Continued(r, s, m) && m <= n
    ensures Continued(r, s, n)
  {
    hide ValidRun;
  }

  lemma ContinuedOne(r: Run, ev: Event, c: Cluster) returns (s: Run)
    requires ValidRun(r) && Next(End(r), ev, c) && (ev.Clock? || ev.Deliver?)
    ensures Continued(r, s, 1) && End(s) == c
  {
    s := Extend(r, ev, c);
    hide ValidRun, Next;
  }

  /** Node i at the end of a run. */
  ghost predicate Present(r: Run, i: NodeID) {
    ValidRun(r) && i in End(r).nodes
  }

  ghost function Of(r: Run, i: NodeID): Node
    requires Present(r, i)
  {
    End(r).nodes[i]
  }

  lemma EndInvariant(r: Run) returns (h: History)
    requires ValidRun(r)
    ensures Inv(End(r), h)
  {
    var hs := TraceOf(r);
    assert TraceAt(r, hs, |r.events|);
    h := hs[|r.events|];
  }

  // ---------------------------------------------------------------- the heartbeat

  /** How many ticks at most until a leader's heartbeat. */
  function Ticks(n: Node): nat
    requires n.role.Leader?
  {
    if n.role.sinceHeartbeat + 1 >= n.opts.heartbeatInterval then 1
    else n.opts.heartbeatInterval - n.role.sinceHeartbeat
  }

  /** The leader's clock has moved, and nothing else about the node has. */
  predicate OnlyTime(n: Node, n': Node) {
    n.role.Leader? && n'.role.Leader? && n' == n.(role := n.role.(sinceHeartbeat := n'.role.sinceHeartbeat))
  }

  function HeartbeatOf(n: Node, to: NodeID): Envelope
    requires n.role.Leader?
  {
    Mail(n, to, Heartbeat(|n.log.entries|, n.log.commitIndex, n.role.readSeq))
  }

  lemma TickCases(n: Node)
    requires Valid(n) && n.role.Leader?
    ensures var r := Tick(n, 0);
            && r.panic.None? && OnlyTime(n, r.node) && Valid(r.node)
            && if Ticks(n) == 1 then forall p :: p in n.peers ==> HeartbeatOf(n, p) in r.out
               else Ticks(r.node) < Ticks(n)
  {
  }

  /** The leader ticks until it has sent its heartbeats. */
  lemma {:induction false} TicksToHeartbeat(r: Run, i: NodeID, j: NodeID) returns (s: Run)
    requires Present(r, i) && Valid(Of(r, i)) && Of(r, i).role.Leader? && j in Of(r, i).peers
    ensures Continued(r, s, Ticks(Of(r, i))) && Present(s, i) && OnlyTime(Of(r, i), Of(s, i))
    ensures End(s).nodes == End(r).nodes[i := Of(s, i)] && HeartbeatOf(Of(s, i), j) in End(s).sent
    decreases Ticks(Of(r, i))
  {
    var n, c := Of(r, i), End(r);
    TickCases(n);
    var e := Tick(n, 0);
    var c' := Install(c, i, e);
    assert Next(c, Clock(i, 0), c');
    hide ValidRun, Valid, Tick, Next;
    s := ContinuedOne(r, Clock(i, 0), c');
    if Ticks(n) > 1 {
      var q := s;
      s := TicksToHeartbeat(q, i, j);
      hide Continued;
      ContinuedTrans(r, q, s, 1, Ticks(e.node));
      ContinuedMore(r, s, 1 + Ticks(e.node), Ticks(n));
    }
  }

  lemma Delivered(r: Run, e: Envelope) returns (s: Run)
    requires Present(r, e.to) && Valid(Of(r, e.to)) && !Of(r, e.to).role.Halted?
    requires e in End(r).sent && e.from != e.to && Step(Of(r, e.to), e, 0).panic.None?
    ensures Continued(r, s, 1)
    ensures var f := Step(Of(r, e.to), e, 0);
            End(s).nodes == End(r).nodes[e.to := f.node] && End(s).sent == End(r).sent + f.out
  {
    hide ValidRun, Step, Valid;
    var c := DeliverNext(End(r), e, 0);
    hide Next;
    s := ContinuedOne(r, Deliver(e, 0), c);
  }

  /** A leader, and a follower of its term. */
  ghost predicate Pair(r: Run, i: NodeID, j: NodeID) {
    && Present(r, i) && Present(r, j) && i != j
    && Of(r, i).role.Leader? && Of(r, j).role.Follower?
    && Of(r, i).log.term == Of(r, j).log.term
    && Of(r, i).opts.maxAppendEntries > 0
  }

  lemma PairFacts(r: Run, i: NodeID, j: NodeID) returns (h: History)
    requires Pair(r, i, j)
    ensures Inv(End(r), h) && Good(h, i, Of(r, i)) && Good(h, j, Of(r, j)) && HistOk(h)
    ensures Valid(Of(r, i)) && Valid(Of(r, j)) && Of(r, i).id == i && Of(r, j).id == j
    ensures j in Of(r, i).peers && i in Of(r, j).peers && Leads(h, Of(r, i).log.term, i)
    ensures Of(r, i).role.progress.Keys == Of(r, i).peers
    ensures Coherent(h, Of(r, i).log.entries) && Coherent(h, Of(r, j).log.entries)
    ensures Of(r, i).log.entries != [] && LastTerm(Of(r, i).log.entries) == Of(r, i).log.term
  {
    h := EndInvariant(r);
    var c := End(r);
    NodeOf(c, h, i);
    NodeOf(c, h, j);
    hide ValidRun, Inv, HistOk, Durable;
    LeaderParts(h, i, Of(r, i));
    NodeParts(h, j, Of(r, j));
  }

  lemma NodeParts(h: History, i: NodeID, n: Node)
    requires Good(h, i, n)
    ensures HistOk(h) && Valid(n) && n.id == i && n.peers == h.ids - {i} && i in h.ids && Coherent(h, n.log.entries)
  {
  }

  lemma LeaderParts(h: History, i: NodeID, n: Node)
    requires Good(h, i, n) && n.role.Leader?
    ensures HistOk(h) && Valid(n) && n.id == i && n.peers == h.ids - {i} && i in h.ids && Coherent(h, n.log.entries)
    ensures Leads(h, n.log.term, i) && n.role.progress.Keys == n.peers
    ensures n.log.entries != [] && LastTerm(n.log.entries) == n.log.term
  {
  }

  /** A follower that has the leader's last entry has the leader's log. */
  lemma LastEntry(h: History, l: Node, f: Node)
    requires Good(h, l.id, l) && Good(h, f.id, f) && l.role.Leader? && f.log.term == l.log.term
    requires Has(f.log.entries, |l.log.entries|, l.log.term)
    ensures f.log.entries == l.log.entries
  {
    var a, b := l.log.entries, f.log.entries;
    assert a[|a| - 1].term == b[|a| - 1].term;
    LeaderParts(h, l.id, l);
    NodeParts(h, f.id, f);
    hide *;
    LogsMatch(h, a, b, |a| - 1);
    WholePrefix(a, b);
    NoLonger(h, l, f);
  }

  lemma WholePrefix(a: seq<Entry>, b: seq<Entry>)
    requires 0 < |a| <= |b| && a[..|a| - 1 + 1] == b[..|a| - 1 + 1]
    ensures Prefix(a, b)
  {
    assert a[..|a|] == a;
  }

  // ---------------------------------------------------------------- the answer to a heartbeat

  /** A follower without the leader's last entry answers that nothing matches. */
  lemma Unmatched(h: History, l: Node, f: Node)
    requires Good(h, l.id, l) && Good(h, f.id, f) && l.role.Leader? && f.role.Follower? && l.id != f.id
    requires f.log.term == l.log.term && f.log.entries != l.log.entries && f.id in h.ids
    ensures Valid(f)
    ensures var r := Step(f, HeartbeatOf(l, f.id), 0);
            && r.panic.None? && r.out == {Mail(f, l.id, HeartbeatResponse(0, l.role.readSeq))}
            && r.node.role.Follower? && r.node.log == f.log && r.node.id == f.id && r.node.opts == f.opts
  {
    var e, x := HeartbeatOf(l, f.id), Seen(f, l.id);
    LeaderParts(h, l.id, l);
    NodeParts(h, f.id, f);
    SeenGood(h, f, l.id);
    if Has(f.log.entries, |l.log.entries|, l.log.term) { LastEntry(h, l, f); }
    HeartbeatHandled(f, l);
    hide Good, Valid, Step, FollowerHeartbeat, HistOk, Leads;
    var g := HearLeaderOk(h, f.id, x, l.id);
    HeartbeatCases(x, e);
  }

  lemma SeenGood(h: History, f: Node, from: NodeID)
    requires Good(h, f.id, f) && f.role.Follower?
    ensures var x := Seen(f, from); Good(h, f.id, x) && x.role.Follower? && x.log == f.log && x.id == f.id && Valid(x)
  {
  }

  lemma HeartbeatHandled(f: Node, l: Node)
    requires Valid(f) && f.role.Follower? && Valid(l) && l.role.Leader? && f.log.term == l.log.term
    ensures var e := HeartbeatOf(l, f.id);
            && e.message.hbCommitIndex <= e.message.hbLastIndex && Valid(Seen(f, l.id))
            && Step(f, e, 0) == FollowerHeartbeat(Seen(f, l.id), e)
  {
    hide FollowerHeartbeat;
  }

  lemma ResponseStarts(l: Node, e: Envelope)
    requires Valid(l) && l.role.Leader? && e.from in l.peers && l.opts.maxAppendEntries > 0
    requires e.term == l.log.term && e.message == HeartbeatResponse(0, l.role.readSeq)
    ensures var r := Step(l, e, 0);
            && Sends(r, e.from, l.role.progress[e.from].matchIndex) && r.node.log.entries == l.log.entries
            && r.panic.None? && r.node.role.Leader? && r.node.log.term == l.log.term && r.node.opts == l.opts
  {
    HeartbeatStarts(l, e);
    hide LeaderHeartbeatResponse, Sends, Valid;
  }

  /** The exchange is what the run has come to. */
  ghost predicate Hosts(r: Run, x: Exchange) {
    && Present(r, x.leader.id) && Present(r, x.follower.id)
    && Of(r, x.leader.id) == x.leader && Of(r, x.follower.id) == x.follower
    && (x.pending.Some? ==> x.pending.value in End(r).sent)
  }

  /** The heartbeat and its answer start an exchange. */
  lemma ProbeStarts(r: Run, i: NodeID, j: NodeID) returns (s: Run, h: History, x: Exchange)
    requires Pair(r, i, j) && Of(r, j).log.entries != Of(r, i).log.entries
    requires HeartbeatOf(Of(r, i), j) in End(r).sent
    ensures Continued(r, s, 2) && Hosts(s, x) && ExchangeOk(h, x) && x.leader.id == i && x.follower.id == j
    ensures x.leader.log.entries == Of(r, i).log.entries && x.leader.log.term == Of(r, i).log.term
  {
    hide *;
    PairIs(r, i, j);
    var q, e := HeartbeatAnswered(r, i, j);
    s, h, x := AnswerStarts(q, i, j, e);
    ContinuedTrans(r, q, s, 1, 1);
  }

  lemma HeartbeatAnswered(r: Run, i: NodeID, j: NodeID) returns (s: Run, e: Envelope)
    requires Pair(r, i, j) && Of(r, j).log.entries != Of(r, i).log.entries
    requires HeartbeatOf(Of(r, i), j) in End(r).sent
    ensures Continued(r, s, 1) && Pair(s, i, j) && Of(s, i) == Of(r, i) && e in End(s).sent
    ensures e.from == j && e.to == i && e.term == Of(r, i).log.term
    ensures e.message == HeartbeatResponse(0, Of(r, i).role.readSeq)
  {
    var l, f := Of(r, i), Of(r, j);
    var h := PairFacts(r, i, j);
    PairIs(r, i, j);
    hide *;
    NodeParts(h, j, f);
    Unmatched(h, l, f);
    HeartbeatIs(l, j);
    s := Delivered(r, HeartbeatOf(l, j));
    e := Mail(f, i, HeartbeatResponse(0, l.role.readSeq));
    ReplyMail(f, i, HeartbeatResponse(0, l.role.readSeq));
    PairStays(r, s, i, j, j, Step(f, HeartbeatOf(l, j), 0));
  }

  lemma AnswerStarts(r: Run, i: NodeID, j: NodeID, e: Envelope) returns (s: Run, h: History, x: Exchange)
    requires Pair(r, i, j) && e in End(r).sent && e.from == j && e.to == i && e.term == Of(r, i).log.term
    requires e.message == HeartbeatResponse(0, Of(r, i).role.readSeq)
    ensures Continued(r, s, 1) && Hosts(s, x) && ExchangeOk(h, x) && x.leader.id == i && x.follower.id == j
    ensures x.leader.log.entries == Of(r, i).log.entries && x.leader.log.term == Of(r, i).log.term
  {
    var l := Of(r, i);
    var g := PairFacts(r, i, j);
    PairIs(r, i, j);
    hide *;
    ResponseStarts(l, e);
    var z := Step(l, e, 0);
    s := Delivered(r, e);
    PairStays(r, s, i, j, i, z);
    h, x := Started(s, z, i, j, l.role.progress[j].matchIndex);
  }

  lemma PairIs(r: Run, i: NodeID, j: NodeID)
    requires Pair(r, i, j)
    ensures Present(r, i) && Present(r, j) && i != j && Of(r, i).role.Leader? && Of(r, j).role.Follower?
    ensures Of(r, i).log.term == Of(r, j).log.term && Of(r, i).opts.maxAppendEntries > 0
    ensures Of(r, j) == End(r).nodes[j]
  {
  }

  lemma HeartbeatIs(l: Node, to: NodeID)
    requires l.role.Leader?
    ensures var e := HeartbeatOf(l, to); e.from == l.id && e.to == to && e.term == l.log.term
  {
  }

  lemma ReplyMail(n: Node, to: NodeID, m: Message)
    ensures var e := Mail(n, to, m); e.from == n.id && e.to == to && e.term == n.log.term && e.message == m
  {
  }

  /** A delivery to one of the two that keeps its role and term. */
  lemma PairStays(r: Run, s: Run, i: NodeID, j: NodeID, at: NodeID, f: Effect)
    requires Pair(r, i, j) && Continued(r, s, 1) && (at == i || at == j)
    requires End(s).nodes == End(r).nodes[at := f.node] && End(s).sent == End(r).sent + f.out
    requires f.node.log.term == Of(r, at).log.term && f.node.opts == Of(r, at).opts
    requires if at == i then f.node.role.Leader? else f.node.role.Follower?
    ensures Pair(s, i, j) && Of(s, at) == f.node && f.out <= End(s).sent
    ensures forall k :: k in {i, j} && k != at ==> Of(s, k) == Of(r, k)
  {
    hide ValidRun;
  }

  lemma Started(s: Run, l: Effect, i: NodeID, j: NodeID, matchIndex: Index) returns (h: History, x: Exchange)
    requires Pair(s, i, j) && Of(s, i) == l.node && l.out <= End(s).sent && Sends(l, j, matchIndex)
    ensures ExchangeOk(h, x) && Hosts(s, x) && x.leader == l.node && x.leader.id == i && x.follower.id == j
  {
    h := PairFacts(s, i, j);
    if e :| AppendTo(e, l.out, j) {
      x := Exchange(l.node, Of(s, j), Some(e));
      assert MsgOk(h, e);
    } else {
      x := Exchange(l.node, Of(s, j), None);
    }
    hide ValidRun, Good, MsgOk, HistOk, Inv, Valid;
  }

  // ---------------------------------------------------------------- the exchange

  /** One round of an exchange is two deliveries. */
  lemma RoundRuns(r: Run, h: History, x: Exchange) returns (s: Run, g: History, y: Exchange)
    requires Hosts(r, x) && ExchangeOk(h, x) && x.pending.Some?
    ensures Continued(r, s, 2) && Hosts(s, y) && ExchangeOk(g, y)
    ensures y.leader.log.entries == x.leader.log.entries && y.leader.log.term == x.leader.log.term
    ensures y.leader.id == x.leader.id && y.follower.id == x.follower.id
    ensures CanRound(x) && CanRound(y) && Rounds(y) < Rounds(x)
  {
    hide *;
    var k, c := RoundIs(h, x);
    ExchangeFacts(h, x);
    HostsIs(r, x);
    y := RoundExists(h, x);
    g := RoundOk(h, x, y);
    var e, reply := x.pending.value, Mail(x.follower, x.leader.id, AppendResponse(k, c));
    ReplyIs(x.follower, x.leader.id, k, c);
    OneReply(x, y, reply);
    var f, l := Step(x.follower, e, 0), Step(x.leader, reply, 0);
    ContinuesIs(x, f, l, y);
    var q := Delivered(r, e);
    Replaced(r, q, x.follower.id, f, x.leader.id);
    s := Delivered(q, reply);
    Replaced(q, s, x.leader.id, l, x.follower.id);
    ContinuedTrans(r, q, s, 1, 1);
    HostsNext(s, x, y, l);
    CanRoundIs(x);
    CanRoundIs(y);
  }

  /** A leader and one of its peers, so that the rounds that may remain can be told. */
  ghost predicate CanRound(x: Exchange) {
    Valid(x.leader) && x.leader.role.Leader? && x.follower.id in x.leader.peers
  }

  lemma CanRoundIs(x: Exchange)
    ensures CanRound(x) <==> Valid(x.leader) && x.leader.role.Leader? && x.follower.id in x.leader.peers
  {
  }

  lemma HostsIs(r: Run, x: Exchange)
    requires Hosts(r, x)
    ensures Present(r, x.leader.id) && Present(r, x.follower.id)
    ensures Of(r, x.leader.id) == x.leader && Of(r, x.follower.id) == x.follower
    ensures x.pending.Some? ==> x.pending.value in End(r).sent
  {
    hide ValidRun;
  }

  lemma Replaced(r: Run, s: Run, at: NodeID, f: Effect, other: NodeID)
    requires Present(r, at) && Present(r, other) && at != other && Continued(r, s, 1)
    requires End(s).nodes == End(r).nodes[at := f.node] && End(s).sent == End(r).sent + f.out
    ensures Present(s, at) && Present(s, other) && Of(s, at) == f.node && Of(s, other) == Of(r, other)
    ensures f.out <= End(s).sent
  {
    hide ValidRun;
  }

  lemma HostsNext(s: Run, x: Exchange, y: Exchange, l: Effect)
    requires Present(s, y.leader.id) && Present(s, y.follower.id) && x.follower.id == y.follower.id
    requires Of(s, y.leader.id) == y.leader && Of(s, y.follower.id) == y.follower && l.out <= End(s).sent
    requires y.pending.Some? ==> AppendTo(y.pending.value, l.out, x.follower.id)
    ensures Hosts(s, y)
  {
    hide ValidRun;
  }

  /** An exchange goes on until the logs are equal. */
  lemma {:induction false} ExchangeRuns(r: Run, h: History, x: Exchange) returns (s: Run)
    requires Hosts(r, x) && ExchangeOk(h, x) && CanRound(x)
    ensures Continued(r, s, 2 * Rounds(x)) && CaughtUpWith(s, x.leader.id, x.follower.id, x.leader.log)
    decreases Rounds(x)
  {
    hide *;
    CanRoundIs(x);
    if x.pending.None? {
      s := r;
      ExchangeEnds(r, h, x);
    } else {
      var q, g, y := RoundRuns(r, h, x);
      CanRoundIs(y);
      s := ExchangeRuns(q, g, y);
      ContinuedTrans(r, q, s, 2, 2 * Rounds(y));
      ContinuedMore(r, s, 2 + 2 * Rounds(y), 2 * Rounds(x));
      CaughtUpSame(s, x.leader.id, x.follower.id, y.leader.log, x.leader.log);
    }
  }

  lemma ExchangeEnds(r: Run, h: History, x: Exchange)
    requires Hosts(r, x) && ExchangeOk(h, x) && x.pending.None?
    ensures forall n: nat :: Continued(r, r, n)
    ensures CaughtUpWith(r, x.leader.id, x.follower.id, x.leader.log)
  {
    CaughtUp(h, x);
    hide Good, ValidRun;
  }

  /** Node i still leads its term with the same entries, and node j has them all. */
  ghost predicate CaughtUpWith(s: Run, i: NodeID, j: NodeID, log: LogState) {
    && Present(s, i) && Present(s, j)
    && Of(s, i).role.Leader? && Of(s, i).log.term == log.term && Of(s, i).log.entries == log.entries
    && Of(s, j).role.Follower? && Of(s, j).log.term == log.term && Of(s, j).log.entries == log.entries
  }

  lemma CaughtUpSame(s: Run, i: NodeID, j: NodeID, a: LogState, b: LogState)
    requires a.term == b.term && a.entries == b.entries
    ensures CaughtUpWith(s, i, j, a) <==> CaughtUpWith(s, i, j, b)
  {
    hide ValidRun;
  }

  // ---------------------------------------------------------------- catch-up

  /** How long a leader at most waits between heartbeats. */
  function Wait(opts: Options): nat {
    if opts.heartbeatInterval > 0 then opts.heartbeatInterval else 1
  }

  lemma TicksBounded(n: Node)
    requires n.role.Leader?
    ensures Ticks(n) <= Wait(n.opts)
  {
  }

  lemma RoundsBounded(h: History, x: Exchange)
    requires ExchangeOk(h, x)
    ensures CanRound(x) && Rounds(x) <= 3 * |x.leader.log.entries| + 1
  {
    ExchangeFacts(h, x);
    hide Good, MsgOk, Valid;
  }

  lemma AfterTicks(r: Run, s: Run, i: NodeID, j: NodeID)
    requires Present(r, i) && Present(r, j) && Present(s, i) && i != j && OnlyTime(Of(r, i), Of(s, i))
    requires End(s).nodes == End(r).nodes[i := Of(s, i)]
    ensures Present(s, j) && Of(s, j) == Of(r, j) && Of(s, i).role.Leader? && Of(s, i).log == Of(r, i).log
    ensures Of(s, i).opts == Of(r, i).opts
    ensures Pair(r, i, j) ==> Pair(s, i, j)
  {
    hide ValidRun;
  }

  lemma AlreadyEqual(r: Run, i: NodeID, j: NodeID)
    requires Pair(r, i, j) && Of(r, j).log.entries == Of(r, i).log.entries
    ensures CaughtUpWith(r, i, j, Of(r, i).log) && forall n: nat :: Continued(r, r, n)
  {
    hide ValidRun;
  }

  /** A leader brings every follower of its term to its own log. */
  lemma FollowerCatchesUp(r: Run, i: NodeID, j: NodeID) returns (s: Run)
    requires Pair(r, i, j)
    ensures Continued(r, s, Wait(Of(r, i).opts) + 6 * |Of(r, i).log.entries| + 4)
    ensures CaughtUpWith(s, i, j, Of(r, i).log)
  {
    hide *;
    PairIs(r, i, j);
    var l := Of(r, i);
    if Of(r, j).log.entries == l.log.entries {
      s := r;
      AlreadyEqual(r, i, j);
    } else {
      var g := PairFacts(r, i, j);
      TicksBounded(l);
      var q := TicksToHeartbeat(r, i, j);
      AfterTicks(r, q, i, j);
      var z, h, x := ProbeStarts(q, i, j);
      RoundsBounded(h, x);
      CanRoundIs(x);
      s := ExchangeRuns(z, h, x);
      ContinuedTrans(r, q, z, Ticks(l), 2);
      ContinuedTrans(r, z, s, Ticks(l) + 2, 2 * Rounds(x));
      ContinuedMore(r, s, Ticks(l) + 2 + 2 * Rounds(x), Wait(l.opts) + 6 * |l.log.entries| + 4);
      CaughtUpSame(s, i, j, x.leader.log, l.log);
    }
  }

  /** A leader, and a running node of no later term. */
  ghost predicate Reaches(r: Run, i: NodeID, j: NodeID) {
    && Present(r, i) && Present(r, j) && i != j
    && Of(r, i).role.Leader? && !Of(r, j).role.Halted?
    && Of(r, j).log.term <= Of(r, i).log.term
    && Of(r, i).opts.maxAppendEntries > 0
  }

  lemma ReachesIs(r: Run, i: NodeID, j: NodeID)
    requires Reaches(r, i, j)
    ensures Present(r, i) && Present(r, j) && i != j && Of(r, i).role.Leader? && !Of(r, j).role.Halted?
    ensures Of(r, j).log.term <= Of(r, i).log.term && Of(r, i).opts.maxAppendEntries > 0
    ensures Of(r, j) == End(r).nodes[j]
  {
  }

  lemma ReachesFacts(r: Run, i: NodeID, j: NodeID) returns (h: History)
    requires Reaches(r, i, j)
    ensures Inv(End(r), h) && Good(h, j, Of(r, j)) && Valid(Of(r, i)) && Valid(Of(r, j))
    ensures Of(r, i).id == i && Of(r, j).id == j && j in Of(r, i).peers
  {
    h := EndInvariant(r);
    var c := End(r);
    NodeOf(c, h, i);
    NodeOf(c, h, j);
    hide ValidRun, Inv, HistOk, Durable;
    LeaderParts(h, i, Of(r, i));
    NodeParts(h, j, Of(r, j));
  }

  /** A heartbeat that is handled makes its receiver a follower of the leader's term. */
  lemma HeartbeatJoins(n: Node, e: Envelope)
    requires Valid(n) && !n.role.Halted? && e.message.Heartbeat? && e.term >= n.log.term
    requires Step(n, e, 0).panic.None?
    ensures var f := Step(n, e, 0).node; f.role.Follower? && f.log.term == e.term
  {
    hide FollowerHeartbeat;
  }

  lemma HeartbeatGoesOn(r: Run, h: History, n: Node, e: Envelope)
    requires ValidRun(r) && Inv(End(r), h) && e in End(r).sent && e.message.Heartbeat? && e.from != e.to
    requires Good(h, e.to, n) && !n.role.Halted?
    ensures Valid(n) && Step(n, e, 0).panic.None?
  {
    assert MsgOk(h, e);
    assert HandedOver(h, n, e);
    assert !Misdirected(n, e);
    hide *;
    StopsExactly(h, e.to, n, e, 0);
  }

  lemma Joins(r: Run, i: NodeID, j: NodeID) returns (s: Run)
    requires Reaches(r, i, j)
    ensures Continued(r, s, Wait(Of(r, i).opts) + 1) && Pair(s, i, j)
    ensures Of(s, i).log == Of(r, i).log && Of(s, i).opts == Of(r, i).opts
  {
    var l := Of(r, i);
    var g := ReachesFacts(r, i, j);
    ReachesIs(r, i, j);
    hide *;
    TicksBounded(l);
    var q := TicksToHeartbeat(r, i, j);
    AfterTicks(r, q, i, j);
    var p, n, e := Of(q, i), Of(q, j), HeartbeatOf(Of(q, i), j);
    ReachesMeans(q, i, j);
    var h := ReachesFacts(q, i, j);
    HeartbeatIs(p, j);
    HeartbeatGoesOn(q, h, n, e);
    s := Delivered(q, e);
    HeartbeatJoins(n, e);
    ReachesPair(q, s, i, j, Step(n, e, 0));
    ContinuedTrans(r, q, s, Ticks(l), 1);
    ContinuedMore(r, s, Ticks(l) + 1, Wait(l.opts) + 1);
  }

  lemma ReachesMeans(r: Run, i: NodeID, j: NodeID)
    requires Present(r, i) && Present(r, j) && i != j && Of(r, i).role.Leader? && !Of(r, j).role.Halted?
    requires Of(r, j).log.term <= Of(r, i).log.term && Of(r, i).opts.maxAppendEntries > 0
    ensures Reaches(r, i, j) && ValidRun(r)
  {
    hide ValidRun;
  }

  lemma ReachesPair(r: Run, s: Run, i: NodeID, j: NodeID, f: Effect)
    requires Reaches(r, i, j) && Continued(r, s, 1)
    requires End(s).nodes == End(r).nodes[j := f.node]
    requires f.node.role.Follower? && f.node.log.term == Of(r, i).log.term
    ensures Pair(s, i, j) && Of(s, i) == Of(r, i)
  {
    hide ValidRun;
  }

  /** From every reachable state with a leader and a running node of no later term, boundedly
      many ticks and deliveries, without any client request or restart, lead to a state in
      which the leader still leads its term with the log it had, and the node has that log. */
  lemma CatchesUp(r: Run, i: NodeID, j: NodeID) returns (s: Run)
    requires Reaches(r, i, j)
    ensures Continued(r, s, 2 * Wait(Of(r, i).opts) + 6 * |Of(r, i).log.entries| + 5)
    ensures CaughtUpWith(s, i, j, Of(r, i).log)
  {
    hide *;
    ReachesIs(r, i, j);
    var l := Of(r, i);
    var q := Joins(r, i, j);
    PairIs(q, i, j);
    var w, n := Wait(l.opts), |l.log.entries|;
    s := FollowerCatchesUp(q, i, j);
    ContinuedTrans(r, q, s, w + 1, w + 6 * n + 4);
    CaughtUpSame(s, i, j, Of(q, i).log, l.log);
  }
}
