/** Leader handlers: elections won, proposals, commitment, reads and replication. */
module RaftLeader {
  import opened Basics
  import opened RaftMessage
  import opened RaftLog
  import opened RaftNode
  import opened RaftHistory
  import opened RaftInvariant
  import opened RaftFollower

  // ---------------------------------------------------------------- messages

  lemma NextAppendOk(h: History, i: NodeID, t: Term, opts: Options, p: Progress, probe: bool, to: NodeID)
    requires Leads(h, t, i) && i in h.ids && to in h.ids && ProgressOk(p, |h.reigns[t].log|)
    requires i in h.excused || opts.maxAppendEntries > 0
    ensures var m := NextAppend(h.reigns[t].log, opts, p, probe).1;
            m.Some? ==> MsgOk(h, Envelope(i, t, to, m.value))
  {
  }

  lemma HeartbeatOk(h: History, i: NodeID, n: Node)
    requires Good(h, i, n) && n.role.Leader?
    ensures Outcome(h, h, i, SendHeartbeat(n))
  {
    var r := SendHeartbeat(n);
    GrowRefl(h, i, n.log.term);
    assert LogOf(h, n.log.term, n.log.commitIndex) == n.log.entries[..n.log.commitIndex];
    assert NodeOk(h, i, r.node);
  }

  // ---------------------------------------------------------------- the leader's own record

  /** The record of term t changes. */
  ghost function Replaced(h: History, t: Term, r: Reign): History {
    h.(reigns := h.reigns[t := r])
  }

  /** The leader's counters and requests move, its log does not. */
  ghost predicate Counts(a: Reign, b: Reign, t: Term) {
    ReignGrows(a, b, t) && b.log == a.log
  }

  lemma ReplacedHistory(h: History, i: NodeID, t: Term, r: Reign)
    requires HistOk(h) && Leads(h, t, i) && Counts(h.reigns[t], r, t) && RequestsOk(Replaced(h, t, r), t)
    requires forall s :: (s, i) in h.votes ==> s <= t
    ensures Grow(h, Replaced(h, t, r), i, t)
    ensures HistOk(Replaced(h, t, r))
  {
    var g := Replaced(h, t, r);
    assert Grow(h, g, i, t);
    if (t, i) in h.acks { assert AckOk(h, t, i); assert AckOk(g, t, i); }
    if (t, i) in h.votes { VoteGrows(h, g, i, t, t, i); }
    assert ReignOk(h, t);
    CoherentGrows(h, g, i, t, h.reigns[t].log);
    assert ReignOk(g, t);
    HistGrows(h, g, i, t);
  }

  lemma ReplacedDurable(h: History, i: NodeID, l: LogState, applied: seq<Entry>, r: Reign)
    requires HistOk(h) && Durable(h, i, l, applied) && Grow(h, Replaced(h, l.term, r), i, l.term)
    ensures Durable(Replaced(h, l.term, r), i, l, applied)
  {
    var g := Replaced(h, l.term, r);
    assert g.votes == h.votes && g.acks == h.acks;
    hide *;
    DurableParts(h, i, l, applied);
    KeepsAllSame(h, g, i, l.term, i, l.entries, l.term + 1);
    SelfDurable(h, g, i, l, applied);
  }

  /** A change of the leader's bookkeeping that the history already supports. */
  lemma LeaderTweak(h: History, i: NodeID, n: Node, role: Role)
    requires Good(h, i, n) && n.role.Leader? && role.Leader?
    requires Valid(n.(role := role)) && LeaderState(h, n.(role := role))
    ensures Good(h, i, n.(role := role))
  {
  }

  // ---------------------------------------------------------------- commitment

  /** What a quorum of match indexes reach is chosen, if it is of the leader's own term. */
  lemma QuorumChosen(h: History, i: NodeID, n: Node, k: Index)
    requires ReignsOk(h) && n.role.Leader? && Valid(n) && LeaderState(h, n)
    requires n.id == i && i in h.ids && n.peers == h.ids - {i}
    requires k == QuorumIndex(n) > 0 && n.log.entries[k - 1].term == n.log.term
    ensures Chosen(h, n.log.term, k)
  {
    var t, m := n.log.term, MatchIndexes(n);
    ClusterMapSize(n);
    var q := ReachedBy(m, k);
    assert h.ids == n.peers + {i};
    assert |q| >= QuorumSize(n);
    assert Majority(q, h.ids);
    assert ReignOk(h, t);
    forall v | v in q ensures (t, v) in h.acks && h.acks[(t, v)] >= k {
      if v != i { assert ProgressState(h, t, v, n.role.progress[v]); }
    }
    assert ChosenBy(h, t, k, q);
  }

  /** The leader has applied k entries. */
  ghost function Applied(h: History, t: Term, k: nat): Reign
    requires t in h.reigns
  {
    h.reigns[t].(applied := k)
  }

  lemma AppliedHistory(h: History, i: NodeID, t: Term, k: nat)
    requires HistOk(h) && Leads(h, t, i) && h.reigns[t].applied <= k
    requires forall s :: (s, i) in h.votes ==> s <= t
    ensures Counts(h.reigns[t], Applied(h, t, k), t)
    ensures var g := Replaced(h, t, Applied(h, t, k)); Grow(h, g, i, t) && HistOk(g)
  {
    var r := Applied(h, t, k);
    var g := Replaced(h, t, r);
    assert ReignOk(h, t);
    forall j | j in r.writes ensures WrittenAt(g, t, j) { assert WrittenAt(h, t, j); }
    forall q | q in r.asks ensures AskedAt(g, t, q) { assert AskedAt(h, t, q); }
    ReplacedHistory(h, i, t, r);
  }

  lemma CommitAndApplyOk(h: History, i: NodeID, n: Node, k: Index) returns (g: History)
    requires Good(h, i, n) && n.role.Leader? && n.log.commitIndex < k <= |n.log.entries|
    requires Chosen(h, n.log.term, k)
    ensures Outcome(h, g, i, CommitAndApply(n, k))
  {
    var t, r := n.log.term, CommitAndApply(n, k);
    var rec := Applied(h, t, |r.node.applied|);
    g := Replaced(h, t, rec);
    AppliedHistory(h, i, t, |r.node.applied|);
    CommitDurable(h, g, i, n.log, n.applied, k, rec);
    CommitRole(h, g, i, n, k);
    CommitMail(h, g, i, n, k);
    CommitSame(n, k);
    hide *;
    Conclude(h, g, i, r);
  }

  lemma CommitSame(n: Node, k: Index)
    requires Valid(n) && n.role.Leader? && n.log.commitIndex < k <= |n.log.entries|
    ensures var r := CommitAndApply(n, k);
            r.node.id == n.id && r.node.peers == n.peers && r.node.log.term == n.log.term && r.panic.None?
  {
  }

  lemma ChosenSafe(h: History, t: Term, k: Index, es: seq<Entry>)
    requires Chosen(h, t, k) && t in h.reigns && h.reigns[t].log == es && k <= |es|
    ensures Safe(h, es[..k], t)
    ensures forall j :: 0 <= j <= k ==> SafeBy(h, es[..j], t, k)
  {
    assert SafeBy(h, es[..k], t, k);
  }

  lemma CommitDurable(h: History, g: History, i: NodeID, l: LogState, applied: seq<Entry>, k: Index, r: Reign)
    requires HistOk(h) && Durable(h, i, l, applied) && l.commitIndex < k <= |l.entries|
    requires Leads(h, l.term, i) && h.reigns[l.term].log == l.entries && Counts(h.reigns[l.term], r, l.term)
    requires Chosen(h, l.term, k) && g == Replaced(h, l.term, r)
    requires Grow(h, g, i, l.term) && HistOk(g)
    ensures Durable(g, i, Commit(l, k), ApplyCommitted(Commit(l, k), applied))
  {
    assert g.reigns[l.term].log == l.entries;
    ChosenGrows(h, g, i, l.term, l.term, k);
    hide *;
    ReplacedDurable(h, i, l, applied, r);
    ChosenSafe(g, l.term, k, l.entries);
    DurableCommit(g, i, l, applied, k);
  }

  lemma CommitMail(h: History, g: History, i: NodeID, n: Node, k: Index)
    requires Good(h, i, n) && n.role.Leader? && n.log.commitIndex < k <= |n.log.entries|
    requires Chosen(h, n.log.term, k)
    requires g == Replaced(h, n.log.term, Applied(h, n.log.term, |CommitAndApply(n, k).node.applied|))
    requires Grow(h, g, i, n.log.term) && HistOk(g)
    ensures MsgsOk(g, CommitAndApply(n, k).out)
  {
    var t, log := n.log.term, Commit(n.log, k);
    LeaderFacts(h, i, n);
    CommitRole(h, g, i, n, k);
    var applied := ApplyCommitted(log, n.applied);
    assert g.reigns[t].applied == |applied| && g.reigns[t].log == n.log.entries && g.ids == h.ids && Leads(g, t, i);
    assert CommitAndApply(n, k).out == WriteResponses(n, applied, |n.applied|);
    assert forall j :: j in n.role.writes ==> WriteState(g, t, j, n.role.writes[j]);
    assert log.commitIndex == k && log.entries == n.log.entries;
    ChosenGrows(h, g, i, t, t, k);
    hide *;
    ChosenSafe(h, t, k, n.log.entries);
    ApplySafe(h, log, n.applied, t);
    WriteResponsesOk(g, i, n, applied, k);
  }

  lemma WriteResponsesOk(g: History, i: NodeID, n: Node, applied: seq<Entry>, k: Index)
    requires HistOk(g) && n.role.Leader? && n.id == i && i in g.ids && Leads(g, n.log.term, i)
    requires g.reigns[n.log.term].log == n.log.entries && g.reigns[n.log.term].applied == |applied|
    requires k <= |n.log.entries| && Chosen(g, n.log.term, k)
    requires |n.applied| < |applied| ==> applied == n.log.entries[..k]
    requires forall j :: j in n.role.writes ==> WriteState(g, n.log.term, j, n.role.writes[j])
    ensures MsgsOk(g, WriteResponses(n, applied, |n.applied|))
  {
    var t := n.log.term;
    hide HistOk, Chosen, MsgOk;
    forall j | j in n.role.writes && |n.applied| < j <= |applied|
      ensures MsgOk(g, Envelope(n.id, t, n.role.writes[j].from,
          ClientResponse(n.role.writes[j].id, WriteResponse(applied[..j]))))
    {
      assert applied[..j] == n.log.entries[..j];
      WriteAnswerOk(g, i, t, j, k, n.role.writes[j]);
    }
  }

  lemma WriteAnswerOk(g: History, i: NodeID, t: Term, j: Index, k: Index, w: Write)
    requires HistOk(g) && Leads(g, t, i) && i in g.ids && WriteState(g, t, j, w)
    requires j <= k <= |g.reigns[t].log| && j <= g.reigns[t].applied && Chosen(g, t, k)
    ensures MsgOk(g, Envelope(i, t, w.from, ClientResponse(w.id, WriteResponse(g.reigns[t].log[..j]))))
  {
    assert ReignOk(g, t) && WrittenAt(g, t, j);
    var state := g.reigns[t].log[..j];
    assert SafeBy(g, state, t, k);
    assert ResultOk(g, t, state);
  }

  lemma CommitRole(h: History, g: History, i: NodeID, n: Node, k: Index)
    requires Good(h, i, n) && n.role.Leader? && n.log.commitIndex < k <= |n.log.entries|
    requires g == Replaced(h, n.log.term, Applied(h, n.log.term, |CommitAndApply(n, k).node.applied|))
    ensures RoleState(g, CommitAndApply(n, k).node)
  {
    var t, x := n.log.term, CommitAndApply(n, k).node;
    forall p | p in x.role.progress ensures ProgressState(g, t, p, x.role.progress[p]) {
      assert ProgressState(h, t, p, n.role.progress[p]);
    }
    forall j | j in x.role.writes ensures WriteState(g, t, j, x.role.writes[j]) {
      assert WriteState(h, t, j, n.role.writes[j]);
    }
    forall j | 0 <= j < |x.role.readQueue| ensures ReadState(g, t, |x.applied|, x.role.readQueue[j]) {
      assert ReadState(h, t, |n.applied|, n.role.readQueue[j]);
    }
  }

  // ---------------------------------------------------------------- reads

  /** What the leader may answer: reads of sequence numbers that a quorum has confirmed. */
  ghost predicate Answerable(n: Node, k: nat)
    requires n.role.Leader? && Valid(n)
  {
    && k <= |n.role.readQueue|
    && (k > 0 ==>
          && n.log.commitTerm >= n.log.term && |n.applied| >= n.log.commitIndex
          && exists q: nat :: Reached(ReadSeqs(n), QuorumSize(n), q) && forall j :: 0 <= j < k ==>
              n.role.readQueue[j].seqNo <= q)
  }

  lemma ReadCases(n: Node) returns (k: nat)
    requires Valid(n) && n.role.Leader?
    ensures Answerable(n, k)
    ensures MaybeRead(n) == Effect(n.(role := n.role.(readQueue := n.role.readQueue[k..])), ReadAnswers(n, k), None)
  {
    k := 0;
    assert n.role.readQueue[0..] == n.role.readQueue;
    if n.role.readQueue != [] && n.log.commitTerm >= n.log.term && |n.applied| >= n.log.commitIndex {
      ClusterMapSize(n);
      var q := QuorumValue(ReadSeqs(n), QuorumSize(n));
      k := ReadyReads(n.role.readQueue, q);
    }
  }

  /** Once an entry of its own term is committed and applied, the leader's state is as far
      as any result of an earlier term. */
  lemma AppliedResult(h: History, i: NodeID, n: Node)
    requires Good(h, i, n) && n.role.Leader? && n.log.commitTerm >= n.log.term && |n.applied| >= n.log.commitIndex
    ensures ResultOk(h, n.log.term, n.applied)
  {
    AppliedPrefix(h, i, n);
    hide Good, Safe, WellFormed, Valid, Sorted;
    LastApplied(n.log, n.applied);
  }

  lemma AppliedPrefix(h: History, i: NodeID, n: Node)
    requires Good(h, i, n) && n.role.Leader?
    ensures Leads(h, n.log.term, i) && h.reigns[n.log.term].log == n.log.entries
    ensures h.reigns[n.log.term].applied == |n.applied|
    ensures Safe(h, n.applied, n.log.term) && Prefix(n.applied, n.log.entries) && WellFormed(n.log) && n.log.term > 0
  {
    SafeInLeader(h, n.applied, n.log.term, n.log.term);
  }

  /** What is applied up to a commit index of the current term ends in that term. */
  lemma LastApplied(l: LogState, applied: seq<Entry>)
    requires WellFormed(l) && Prefix(applied, l.entries) && l.commitTerm >= l.term > 0 && |applied| >= l.commitIndex
    ensures applied != [] && LastTerm(applied) == l.term
  {
    var c, k := l.commitIndex, |applied|;
    TermsBounded(l.entries, k - 1);
    TermsBounded(l.entries, c - 1);
    assert Ordered(l.entries, c - 1, k - 1);
  }

  lemma QuorumConfirms(h: History, i: NodeID, n: Node, q: nat, seqNo: nat) returns (c: set<NodeID>)
    requires Valid(n) && n.role.Leader? && LeaderState(h, n) && n.id == i && i in h.ids && n.peers == h.ids - {i}
    requires Reached(ReadSeqs(n), QuorumSize(n), q) && 0 < seqNo <= q
    ensures ConfirmedBy(h, n.log.term, seqNo, c)
  {
    var t, m := n.log.term, ReadSeqs(n);
    ClusterMapSize(n);
    c := ReachedBy(m, q);
    assert h.ids == n.peers + {i};
    assert Majority(c, h.ids);
    forall v | v in c && v != i ensures (t, v) in h.readAcks && h.readAcks[(t, v)] >= seqNo {
      assert ProgressState(h, t, v, n.role.progress[v]);
    }
  }

  lemma ReadAnswerOk(h: History, i: NodeID, n: Node, k: nat, j: nat)
    requires Good(h, i, n) && n.role.Leader? && Answerable(n, k) && j < k && ResultOk(h, n.log.term, n.applied)
    ensures MsgOk(h, Respond(n, n.role.readQueue[j].from, n.role.readQueue[j].id,
        ReadResponse(n.applied, n.role.readQueue[j].command)))
  {
    var t, r := n.log.term, n.role.readQueue[j];
    var q: nat :| Reached(ReadSeqs(n), QuorumSize(n), q) && forall j :: 0 <= j < k ==> n.role.readQueue[j].seqNo <= q;
    assert ReadState(h, t, |n.applied|, r);
    assert ReignOk(h, t) && AskedAt(h, t, r.seqNo);
    var c := QuorumConfirms(h, i, n, q, r.seqNo);
    assert ReadResultBy(h, t, r.id, r.command, |n.applied|, r.seqNo, c);
  }

  lemma ReadAnswersOk(h: History, i: NodeID, n: Node, k: nat)
    requires Good(h, i, n) && n.role.Leader? && Valid(n) && Answerable(n, k)
    ensures MsgsOk(h, ReadAnswers(n, k))
  {
    if k > 0 {
      AppliedResult(h, i, n);
      hide Good, MsgOk, Valid, ResultOk;
      forall j | 0 <= j < k
        ensures MsgOk(h, Respond(n, n.role.readQueue[j].from, n.role.readQueue[j].id,
            ReadResponse(n.applied, n.role.readQueue[j].command)))
      {
        ReadAnswerOk(h, i, n, k, j);
      }
    }
  }

  lemma ReadsLeave(h: History, i: NodeID, n: Node, k: nat)
    requires Good(h, i, n) && n.role.Leader? && k <= |n.role.readQueue|
    ensures Good(h, i, n.(role := n.role.(readQueue := n.role.readQueue[k..])))
  {
    var x := n.(role := n.role.(readQueue := n.role.readQueue[k..]));
    LeaderTweak(h, i, n, x.role);
  }

  lemma MaybeReadOk(h: History, i: NodeID, n: Node)
    requires Good(h, i, n) && n.role.Leader?
    ensures Outcome(h, h, i, MaybeRead(n))
  {
    GoodLeader(h, i, n);
    GrowRefl(h, i, n.log.term);
    var k := ReadCases(n);
    ReadAnswersOk(h, i, n, k);
    ReadsLeave(h, i, n, k);
    hide *;
    Finish(h, h, i, MaybeRead(n));
  }

  lemma GoodLeader(h: History, i: NodeID, n: Node)
    requires Good(h, i, n) && n.role.Leader?
    ensures Valid(n) && LeaderState(h, n) && ReignsOk(h)
    ensures n.id == i && i in h.ids && n.peers == h.ids - {i}
    ensures n.log.commitIndex <= |n.log.entries|
  {
  }

  lemma MaybeCommitAndApplyOk(h: History, i: NodeID, n: Node) returns (g: History)
    requires Good(h, i, n) && n.role.Leader?
    ensures Outcome(h, g, i, MaybeCommitAndApply(n))
  {
    GoodLeader(h, i, n);
    hide *;
    var k := QuorumIndex(n);
    CommitCases(n, k);
    g := h;
    Unchanged(h, i, n);
    if k > n.log.commitIndex && n.log.entries[k - 1].term == n.log.term {
      QuorumChosen(h, i, n, k);
      g := CommitAndApplyOk(h, i, n, k);
      var c := CommitAndApply(n, k);
      if n.log.commitTerm != n.log.term {
        MaybeReadAfter(h, g, i, c);
      }
    }
  }

  lemma MaybeReadAfter(h: History, g: History, i: NodeID, c: Effect)
    requires c.node.role.Leader? && Outcome(h, g, i, c)
    ensures Valid(c.node)
    ensures Outcome(h, g, i, Effect(MaybeRead(c.node).node, c.out + MaybeRead(c.node).out, MaybeRead(c.node).panic))
  {
    MaybeReadOk(g, i, c.node);
    Chain(h, g, g, i, c, MaybeRead(c.node));
  }

  // ---------------------------------------------------------------- proposals

  /** The leader's log grows by one entry, which it holds itself, for a client's request. */
  ghost function Extended(h: History, t: Term, i: NodeID, e: Entry, id: Option<RequestID>): History
    requires t in h.reigns
  {
    var r := h.reigns[t];
    var writes := if id.Some? then r.writes[|r.log| + 1 := id.value] else r.writes;
    h.(reigns := h.reigns[t := r.(log := r.log + [e], writes := writes)], acks := h.acks[(t, i) := |r.log| + 1])
  }

  /** The entry is the leader's own, or that of a submitted write. */
  ghost predicate Proposal(h: History, t: Term, e: Entry, id: Option<RequestID>)
    requires t in h.reigns
  {
    && e.term == t && e.index == |h.reigns[t].log| + 1
    && (id.Some? ==> e.command.Some? && Taken(h, t, id.value, WriteRequest(e.command.value)))
  }

  lemma ExtendedHistory(h: History, i: NodeID, t: Term, e: Entry, id: Option<RequestID>)
    requires HistOk(h) && Leads(h, t, i) && Proposal(h, t, e, id)
    requires forall s :: (s, i) in h.votes ==> s <= t
    ensures Grow(h, Extended(h, t, i, e, id), i, t)
    ensures HistOk(Extended(h, t, i, e, id))
  {
    var g := Extended(h, t, i, e, id);
    assert ReignOk(h, t) && VoteOk(h, t, i);
    ExtendedGrows(h, i, t, e, id);
    assert AckOk(g, t, i);
    VoteGrows(h, g, i, t, t, i);
    ExtendedReign(h, i, t, e, id);
    HistGrows(h, g, i, t);
  }

  lemma ExtendedGrows(h: History, i: NodeID, t: Term, e: Entry, id: Option<RequestID>)
    requires Leads(h, t, i) && ReignOk(h, t) && Proposal(h, t, e, id)
    ensures Grow(h, Extended(h, t, i, e, id), i, t)
  {
    var a, b := h.reigns[t], Extended(h, t, i, e, id).reigns[t];
    forall k | k in a.writes ensures k in b.writes && b.writes[k] == a.writes[k] { assert WrittenAt(h, t, k); }
    assert ReignGrows(a, b, t);
  }

  lemma ExtendedReign(h: History, i: NodeID, t: Term, e: Entry, id: Option<RequestID>)
    requires Leads(h, t, i) && ReignOk(h, t) && Proposal(h, t, e, id)
    requires Grow(h, Extended(h, t, i, e, id), i, t)
    ensures ReignOk(Extended(h, t, i, e, id), t)
  {
    ExtendedLog(h, i, t, e, id);
    ExtendedRequests(h, i, t, e, id);
    hide RequestsOk, Coherent, Sorted, Grow;
  }

  lemma ExtendedLog(h: History, i: NodeID, t: Term, e: Entry, id: Option<RequestID>)
    requires Leads(h, t, i) && ReignOk(h, t) && Proposal(h, t, e, id)
    requires Grow(h, Extended(h, t, i, e, id), i, t)
    ensures var g := Extended(h, t, i, e, id); Sorted(g.reigns[t].log) && Coherent(g, g.reigns[t].log)
  {
    JoinSorted(h.reigns[t].log, [e]);
    hide RequestsOk, Coherent, Sorted, Grow;
    LeaderCoherent(h, Extended(h, t, i, e, id), i, t, h.reigns[t].log, e);
  }

  lemma ExtendedRequests(h: History, i: NodeID, t: Term, e: Entry, id: Option<RequestID>)
    requires Leads(h, t, i) && RequestsOk(h, t) && Proposal(h, t, e, id)
    ensures RequestsOk(Extended(h, t, i, e, id), t)
  {
    var g := Extended(h, t, i, e, id);
    forall k | k in g.reigns[t].writes ensures WrittenAt(g, t, k) {
      if k in h.reigns[t].writes { assert WrittenAt(h, t, k); }
    }
    forall q | q in g.reigns[t].asks ensures AskedAt(g, t, q) { assert AskedAt(h, t, q); }
  }

  /** A leader's log followed by a new entry of its term is coherent with itself. */
  lemma LeaderCoherent(h: History, g: History, i: NodeID, t: Term, es: seq<Entry>, e: Entry)
    requires Grow(h, g, i, t) && Coherent(h, es) && e.term == t
    requires t in g.reigns && g.reigns[t].log == es + [e]
    ensures Coherent(g, es + [e])
  {
    CoherentGrows(h, g, i, t, es);
    forall k | 0 <= k < |es| + 1 ensures CoherentAt(g, es + [e], k) {
      if k < |es| {
        assert CoherentAt(g, es, k);
        assert (es + [e])[..k + 1] == es[..k + 1];
      }
    }
  }

  /** Appending to the log keeps what it kept; the leader holds all of its own log. */
  lemma LeaderKeeps(h: History, g: History, i: NodeID, t: Term, es: seq<Entry>, e: Entry)
    requires HistOk(h) && Grow(h, g, i, t) && KeepsAll(h, i, es, t + 1)
    requires t in g.reigns && g.reigns[t].log == es + [e]
    ensures KeepsAll(g, i, es + [e], t + 1)
  {
    var bound := t + 1;
    forall s, k | (s, i) in g.acks && s < bound && AckOk(g, s, i) && 1 <= k <= g.acks[(s, i)]
      ensures Keeps(g, es + [e], s, k, bound)
    {
      if s != t {
        assert AckOk(h, s, i);
        KeepsGrows(h, g, i, t, es, s, k, bound);
        if Prefix(LogOf(g, s, k), es) { PrefixTransitive(LogOf(g, s, k), es, es + [e]); }
      }
    }
  }

  lemma LeaderDurable(h: History, g: History, i: NodeID, l: LogState, applied: seq<Entry>, command: Option<Command>)
    requires HistOk(h) && Durable(h, i, l, applied) && Grow(h, g, i, l.term) && l.term > 0
    requires l.term in g.reigns && g.reigns[l.term].log == AppendCommand(l, command).entries
    requires g.votes == h.votes
    ensures Durable(g, i, AppendCommand(l, command), applied)
  {
    hide *;
    var e, l' := Entry(|l.entries| + 1, l.term, command), AppendCommand(l, command);
    DurableParts(h, i, l, applied);
    AppendedLog(l, command);
    GrowParts(h, g, i, l.term);
    LeaderCoherent(h, g, i, l.term, l.entries, e);
    LeaderKeeps(h, g, i, l.term, l.entries, e);
    OwnRecords(h, g, i, l, l'.entries);
    SameRecords(g, i, l, l');
    SafeGrows(h, g, i, l.term, l.entries[..l.commitIndex], l.term);
    SafeGrows(h, g, i, l.term, applied, l.term);
    DurableFrom(g, i, l', applied);
  }

  lemma AppendedLog(l: LogState, command: Option<Command>)
    requires WellFormed(l) && l.term > 0
    ensures var l' := AppendCommand(l, command);
            && l' == l.(entries := l.entries + [Entry(|l.entries| + 1, l.term, command)])
            && WellFormed(l') && l.commitIndex <= |l'.entries| &&
                l'.entries[..l.commitIndex] == l.entries[..l.commitIndex]
  {
  }

  lemma SameRecords(g: History, i: NodeID, l: LogState, l': LogState)
    requires VoteState(g, i, l) && l'.term == l.term && l'.vote == l.vote
    ensures VoteState(g, i, l')
  {
  }

  /** The appends a proposal sends. */
  lemma ProposeMail(g: History, i: NodeID, n: Node, command: Option<Command>)
    requires n.role.Leader? && n.id == i && i !in n.peers && WellFormed(n.log)
    requires n.log.term > 0 && n.log.vote == Some(i)
    requires n.role.progress.Keys == n.peers && ProgressAllOk(n.role.progress, |n.log.entries|)
    requires Leads(g, n.log.term, i) && g.reigns[n.log.term].log == AppendCommand(n.log, command).entries
    requires i in g.ids && n.peers <= g.ids && (i in g.excused || n.opts.maxAppendEntries > 0)
    ensures MsgsOk(g, ProposeAs(n, command).out)
  {
    var prog, index, es := n.role.progress, |n.log.entries| + 1, AppendCommand(n.log, command).entries;
    forall p | p in prog && prog[p].nextIndex == index && NextAppend(es, n.opts, prog[p], false).1.Some?
      ensures MsgOk(g, Envelope(i, n.log.term, p, NextAppend(es, n.opts, prog[p], false).1.value))
    {
      NextAppendOk(g, i, n.log.term, n.opts, prog[p], false, p);
    }
  }

  lemma ProposeRole(h: History, g: History, i: NodeID, n: Node, command: Option<Command>, id: Option<RequestID>)
    requires Good(h, i, n) && n.role.Leader?
    requires g == Extended(h, n.log.term, i, Entry(|n.log.entries| + 1, n.log.term, command), id)
    ensures RoleState(g, ProposeAs(n, command).node)
  {
    var t, x := n.log.term, ProposeAs(n, command).node;
    assert ReignOk(h, t);
    ProposeBookkeeping(n, command);
    ProposeProgress(h, g, i, n, command, id);
    ProposeClients(h, g, n, Entry(|n.log.entries| + 1, t, command), id);
    hide ProposeAs, ReadState, WriteState, ProgressState, Valid, ReignOk;
  }

  /** What is on record of pending requests stays so. */
  lemma ProposeClients(h: History, g: History, n: Node, e: Entry, id: Option<RequestID>)
    requires n.role.Leader? && LeaderState(h, n) && ReignOk(h, n.log.term) && g == Extended(h, n.log.term, n.id, e, id)
    ensures forall j :: j in n.role.writes ==> WriteState(g, n.log.term, j, n.role.writes[j])
    ensures forall j :: 0 <= j < |n.role.readQueue| ==>
              ReadState(g, n.log.term, |n.applied|, n.role.readQueue[j])
  {
    var t := n.log.term;
    hide ProgressState, CoherentAt;
    forall j | j in n.role.writes ensures WriteState(g, t, j, n.role.writes[j]) {
      assert WriteState(h, t, j, n.role.writes[j]) && WrittenAt(h, t, j);
    }
    forall j | 0 <= j < |n.role.readQueue| ensures ReadState(g, t, |n.applied|, n.role.readQueue[j]) {
      assert ReadState(h, t, |n.applied|, n.role.readQueue[j]);
    }
  }

  /** A proposal changes only the progress of peers. */
  lemma ProposeBookkeeping(n: Node, command: Option<Command>)
    requires Valid(n) && n.role.Leader?
    ensures var x := ProposeAs(n, command).node;
            x.role.writes == n.role.writes && x.role.readQueue == n.role.readQueue && x.role.readSeq == n.role.readSeq
  {
  }

  lemma ProposeProgress(h: History, g: History, i: NodeID, n: Node, command: Option<Command>, id: Option<RequestID>)
    requires Good(h, i, n) && n.role.Leader?
    requires g == Extended(h, n.log.term, i, Entry(|n.log.entries| + 1, n.log.term, command), id)
    ensures var x := ProposeAs(n, command).node;
            forall p :: p in x.role.progress ==> ProgressState(g, n.log.term, p, x.role.progress[p])
  {
    var t, x := n.log.term, ProposeAs(n, command).node;
    forall p | p in x.role.progress ensures ProgressState(g, t, p, x.role.progress[p]) {
      assert ProgressState(h, t, p, n.role.progress[p]);
    }
  }

  lemma ProposeOk(h: History, i: NodeID, n: Node, command: Option<Command>, id: Option<RequestID>) returns (g: History)
    requires Good(h, i, n) && n.role.Leader?
    requires id.Some? ==> command.Some? && Taken(h, n.log.term, id.value, WriteRequest(command.value))
    ensures Outcome(h, g, i, ProposeAs(n, command))
    ensures g.follows == h.follows && g.ids == h.ids
    ensures id.Some? ==>
        && Leads(g, n.log.term, i)
        && g.reigns[n.log.term].writes[|n.log.entries| + 1 := id.value] == g.reigns[n.log.term].writes
  {
    hide *;
    LeaderFacts(h, i, n);
    var t, e, r := n.log.term, Entry(|n.log.entries| + 1, n.log.term, command), ProposeAs(n, command);
    g := Extended(h, t, i, e, id);
    ProposalFacts(h, i, n, command, id);
    ExtendedHistory(h, i, t, e, id);
    ProposeMail(g, i, n, command);
    LeaderDurable(h, g, i, n.log, n.applied, command);
    ProposeRole(h, g, i, n, command, id);
    Conclude(h, g, i, r);
  }

  /** What the invariant says of a leader. */
  lemma LeaderFacts(h: History, i: NodeID, n: Node)
    requires Good(h, i, n) && n.role.Leader?
    ensures HistOk(h) && Valid(n) && Durable(h, i, n.log, n.applied) && LeaderState(h, n)
    ensures n.id == i && i in h.ids && n.peers == h.ids - {i} && n.peers <= h.ids && i !in n.peers
    ensures Leads(h, n.log.term, i) && h.reigns[n.log.term].log == n.log.entries
    ensures h.reigns[n.log.term].applied == |n.applied| && h.reigns[n.log.term].readSeq == n.role.readSeq
    ensures WellFormed(n.log) && n.log.term > 0 && n.log.vote == Some(i) && Safe(h, n.applied, n.log.term)
    ensures n.role.progress.Keys == n.peers && ProgressAllOk(n.role.progress, |n.log.entries|)
    ensures i in h.excused || n.opts.maxAppendEntries > 0
    ensures forall s :: (s, i) in h.votes ==> s <= n.log.term
  {
  }

  lemma ProposalFacts(h: History, i: NodeID, n: Node, command: Option<Command>, id: Option<RequestID>)
    requires Good(h, i, n) && n.role.Leader? && Valid(n) && n.id == i && n.log.term in h.reigns
    requires id.Some? ==> command.Some? && Taken(h, n.log.term, id.value, WriteRequest(command.value))
    ensures var t, e, r := n.log.term, Entry(|n.log.entries| + 1, n.log.term, command), ProposeAs(n, command);
            var g := Extended(h, t, i, e, id);
            && Proposal(h, t, e, id)
            && g.ids == h.ids && g.votes == h.votes && g.follows == h.follows && g.excused == h.excused
            && Leads(g, t, i) && g.reigns[t].log == AppendCommand(n.log, command).entries
            && (id.Some? ==> g.reigns[t].writes[|n.log.entries| + 1 := id.value] == g.reigns[t].writes)
            && r.node.id == i && r.node.peers == g.ids - {i} && Valid(r.node) && r.panic.None?
            && r.node.log == AppendCommand(n.log, command) && r.node.log.term == t && r.node.applied == n.applied
  {
  }

  // ---------------------------------------------------------------- winning an election

  ghost function Elected(h: History, i: NodeID, n: Node): History
    requires n.role.Candidate?
  {
    var t := n.log.term;
    var log := n.log.entries + [Entry(|n.log.entries| + 1, t, None)];
    h.(reigns := h.reigns[t := Reign(i, log, n.role.votes, |n.applied|, 0, map[], map[])],
        acks := h.acks[(t, i) := |log|])
  }

  /** Election safety: a majority of votes in a term that already has a leader is impossible. */
  lemma NoOtherLeader(h: History, i: NodeID, n: Node)
    requires Good(h, i, n) && n.role.Candidate? && Majority(n.role.votes, h.ids)
    ensures n.log.term !in h.reigns
    ensures (n.log.term, i) !in h.acks
  {
    var t := n.log.term;
    if t in h.reigns {
      assert ReignOk(h, t);
      var v := MajoritiesMeet(n.role.votes, h.reigns[t].electors, h.ids);
      assert false;
    }
    AckTerm(h, t, i);
  }

  lemma AckTerm(h: History, s: Term, v: NodeID)
    requires AcksOk(h)
    ensures (s, v) in h.acks ==> s in h.reigns
  {
    if (s, v) in h.acks { assert AckOk(h, s, v); }
  }

  lemma ElectedReign(h: History, i: NodeID, n: Node)
    requires Good(h, i, n) && n.role.Candidate? && Majority(n.role.votes, h.ids)
    requires Grow(h, Elected(h, i, n), i, n.log.term)
    ensures ReignOk(Elected(h, i, n), n.log.term)
  {
    var t, g, e := n.log.term, Elected(h, i, n), Entry(|n.log.entries| + 1, n.log.term, None);
    assert VoteOk(h, t, i);
    JoinSorted(n.log.entries, [e]);
    LeaderCoherent(h, g, i, t, n.log.entries, e);
  }

  lemma ElectedHistory(h: History, i: NodeID, n: Node)
    requires Good(h, i, n) && n.role.Candidate? && Majority(n.role.votes, h.ids)
    ensures Grow(h, Elected(h, i, n), i, n.log.term) && HistOk(Elected(h, i, n))
  {
    var t, g := n.log.term, Elected(h, i, n);
    NoOtherLeader(h, i, n);
    ElectedGrows(h, i, n);
    VoteGrows(h, g, i, t, t, i);
    ElectedReign(h, i, n);
    hide Elected, Good, Grow, ReignOk;
    HistGrows(h, g, i, t);
  }

  lemma ElectedGrows(h: History, i: NodeID, n: Node)
    requires Good(h, i, n) && n.role.Candidate? && n.log.term !in h.reigns
    ensures var g := Elected(h, i, n); Grow(h, g, i, n.log.term) && AckOk(g, n.log.term, i)
    ensures (n.log.term, i) !in h.readAcks
  {
    var t := n.log.term;
    assert (t, i) in h.acks ==> AckOk(h, t, i);
    assert Grow(h, Elected(h, i, n), i, t);
  }

  lemma PromoteOk(h: History, i: NodeID, n: Node) returns (g: History)
    requires Good(h, i, n) && n.role.Candidate? && Majority(n.role.votes, h.ids)
    ensures Outcome(h, g, i, Promote(n))
  {
    var r, next := Promote(n), |n.log.entries| + 1;
    g := Elected(h, i, n);
    ElectedHistory(h, i, n);
    LeaderDurable(h, g, i, n.log, n.applied, None);
    ProposeMail(g, i, n.(role := Leader(map p | p in n.peers :: Progress(0, next, 0), map[], [], 0, 0)), None);
    PromoteRole(g, i, n);
    hide *;
    Conclude(h, g, i, r);
  }

  lemma PromoteRole(g: History, i: NodeID, n: Node)
    requires Valid(n) && n.role.Candidate? && n.id == i && n.peers == g.ids - {i} && i in g.ids
    requires Leads(g, n.log.term, i) && (i !in g.excused ==> (n.log.term, i) !in g.follows)
    requires g.reigns[n.log.term].log == AppendCommand(n.log, None).entries
    requires g.reigns[n.log.term].applied == |n.applied| && g.reigns[n.log.term].readSeq == 0
    requires i in g.excused || n.opts.maxAppendEntries > 0
    ensures var r := Promote(n);
            && RoleState(g, r.node) && r.panic.None?
            && r.node.id == i && r.node.peers == g.ids - {i}
            && r.node.log == AppendCommand(n.log, None) && r.node.applied == n.applied
  {
    var x := Promote(n).node;
    forall p | p in x.role.progress ensures ProgressState(g, n.log.term, p, x.role.progress[p]) {
    }
  }

  lemma IntoLeaderCases(n: Node)
    requires Valid(n) && n.role.Candidate?
    ensures var p := Promote(n);
            var c := MaybeCommitAndApply(p.node);
            var d := SendHeartbeat(c.node);
            IntoLeader(n) == Effect(d.node, (p.out + c.out) + d.out, d.panic)
  {
  }

  lemma IntoLeaderOk(h: History, i: NodeID, n: Node) returns (g: History)
    requires Good(h, i, n) && n.role.Candidate? && Majority(n.role.votes, h.ids)
    ensures Outcome(h, g, i, IntoLeader(n))
  {
    IntoLeaderCases(n);
    var f := PromoteOk(h, i, n);
    var p := Promote(n);
    hide *;
    g := CommitAfter(h, f, i, p);
    var c := MaybeCommitAndApply(p.node);
    HeartbeatAfter(h, g, i, Effect(c.node, p.out + c.out, c.panic));
  }

  /** The leader commits and applies after another effect. */
  lemma CommitAfter(h: History, f: History, i: NodeID, p: Effect) returns (g: History)
    requires p.node.role.Leader? && Outcome(h, f, i, p)
    ensures Valid(p.node)
    ensures var c := MaybeCommitAndApply(p.node); Outcome(h, g, i, Effect(c.node, p.out + c.out, c.panic))
  {
    OutcomeParts(h, f, i, p);
    g := MaybeCommitAndApplyOk(f, i, p.node);
    hide *;
    Chain(h, f, g, i, p, MaybeCommitAndApply(p.node));
  }

  lemma OutcomeParts(h: History, g: History, i: NodeID, r: Effect)
    requires Outcome(h, g, i, r)
    ensures Grow(h, g, i, r.node.log.term) && Good(g, i, r.node) && MsgsOk(g, r.out) && Valid(r.node)
  {
  }

  lemma HeartbeatAfter(h: History, g: History, i: NodeID, c: Effect)
    requires c.node.role.Leader? && Outcome(h, g, i, c)
    ensures Valid(c.node)
    ensures var d := SendHeartbeat(c.node); Outcome(h, g, i, Effect(d.node, c.out + d.out, d.panic))
  {
    HeartbeatOk(g, i, c.node);
    assert SendHeartbeat(c.node).node.log == c.node.log;
    hide *;
    OutcomeParts(h, g, i, c);
    Chain(h, g, g, i, c, SendHeartbeat(c.node));
  }

  // ---------------------------------------------------------------- replication

  /** Recording a peer's progress that its acknowledgements support. */
  lemma ProgressOkStep(h: History, i: NodeID, n: Node, peer: NodeID, p: Progress)
    requires Good(h, i, n) && n.role.Leader? && peer in n.peers
    requires ProgressOk(p, |n.log.entries|) && ProgressState(h, n.log.term, peer, p)
    ensures Good(h, i, SetProgress(n, peer, p))
  {
    var x := SetProgress(n, peer, p);
    forall q | q in x.role.progress ensures ProgressState(h, n.log.term, q, x.role.progress[q]) {
      if q != peer { assert ProgressState(h, n.log.term, q, n.role.progress[q]); }
    }
    LeaderTweak(h, i, n, x.role);
  }

  lemma MaybeSendAppendOk(h: History, i: NodeID, n: Node, peer: NodeID, probe: bool)
    requires Good(h, i, n) && n.role.Leader? && peer in n.peers
    ensures Outcome(h, h, i, MaybeSendAppend(n, peer, probe))
  {
    var r := MaybeSendAppend(n, peer, probe);
    var a := NextAppend(n.log.entries, n.opts, n.role.progress[peer], probe);
    assert ProgressState(h, n.log.term, peer, n.role.progress[peer]);
    ProgressOkStep(h, i, n, peer, a.0);
    NextAppendOk(h, i, n.log.term, n.opts, n.role.progress[peer], probe, peer);
    assert r.node == SetProgress(n, peer, a.0);
    assert MsgsOk(h, r.out);
    hide *;
    GrowRefl(h, i, r.node.log.term);
    Finish(h, h, i, r);
  }

  lemma LeaderConfirmOk(h: History, i: NodeID, n: Node, peer: NodeID, q: nat)
    requires Good(h, i, n) && n.role.Leader? && peer in n.peers
    requires q > 0 ==> (n.log.term, peer) in h.readAcks && q <= h.readAcks[(n.log.term, peer)]
    ensures Outcome(h, h, i, LeaderConfirm(n, peer, q))
  {
    var a := AdvanceRead(n.role.progress[peer], q);
    if a.None? {
      Unchanged(h, i, n);
    } else {
      assert ProgressState(h, n.log.term, peer, n.role.progress[peer]);
      ProgressOkStep(h, i, n, peer, a.value);
      var x := SetProgress(n, peer, a.value);
      assert LeaderConfirm(n, peer, q) == MaybeRead(x);
      hide *;
      MaybeReadOk(h, i, x);
    }
  }

  lemma LeaderMatchOk(h: History, i: NodeID, n: Node, peer: NodeID, k: Index) returns (g: History)
    requires Good(h, i, n) && n.role.Leader? && peer in n.peers && k <= |n.log.entries|
    requires k > 0 ==> (n.log.term, peer) in h.acks && k <= h.acks[(n.log.term, peer)]
    ensures Outcome(h, g, i, LeaderMatch(n, peer, k))
  {
    var a := Advance(n.role.progress[peer], k);
    if a.None? {
      g := h;
      Unchanged(h, i, n);
    } else {
      assert ProgressState(h, n.log.term, peer, n.role.progress[peer]);
      ProgressOkStep(h, i, n, peer, a.value);
      var x := SetProgress(n, peer, a.value);
      assert LeaderMatch(n, peer, k) == MaybeCommitAndApply(x);
      hide *;
      g := MaybeCommitAndApplyOk(h, i, x);
    }
  }

  lemma LeaderProbeOk(h: History, i: NodeID, n: Node, peer: NodeID, next: Index, force: bool)
    requires Good(h, i, n) && n.role.Leader? && peer in n.peers && next <= |n.log.entries|
    ensures Outcome(h, h, i, LeaderProbe(n, peer, next, force))
  {
    var a := RegressNext(n.role.progress[peer], next);
    if a.Some? {
      assert ProgressState(h, n.log.term, peer, n.role.progress[peer]);
      ProgressOkStep(h, i, n, peer, a.value);
      var x := SetProgress(n, peer, a.value);
      assert LeaderProbe(n, peer, next, force) == MaybeSendAppend(x, peer, true);
      hide *;
      MaybeSendAppendOk(h, i, x, peer, true);
    } else if force {
      MaybeSendAppendOk(h, i, n, peer, true);
    } else {
      Unchanged(h, i, n);
    }
  }
}
