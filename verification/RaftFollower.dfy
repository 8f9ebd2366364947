/** Follower and candidate handlers keep the node invariant, and every message they send is
    justified by the history. */
module RaftFollower {
  import opened Basics
  import opened RaftMessage
  import opened RaftLog
  import opened RaftNode
  import opened RaftHistory
  import opened RaftInvariant

  /** The history and one node's view of it. */
  ghost predicate Good(h: History, i: NodeID, n: Node) {
    HistOk(h) && NodeOk(h, i, n)
  }

  /** Panics that a node may meet only after a restart. */
  predicate AfterRestart(p: Panic) {
    p.UnexpectedMessage? || p.ForeignClientRequest? || p.ForeignClientResponse?
      || p.InvalidAppendResponse?
  }

  /** The outcome of a handler of node i, in a history grown from h to g. */
  ghost predicate Outcome(h: History, g: History, i: NodeID, r: Effect) {
    && Grow(h, g, i, r.node.log.term)
    && Good(g, i, r.node)
    && MsgsOk(g, r.out)
    && (r.panic.Some? ==> i in g.excused && AfterRestart(r.panic.value))
  }

  /** A handler's effect followed by another's. */
  lemma Chain(h: History, g: History, f: History, i: NodeID, a: Effect, b: Effect)
    requires Grow(h, g, i, b.node.log.term) && MsgsOk(g, a.out) && Outcome(g, f, i, b)
    ensures Outcome(h, f, i, Effect(b.node, a.out + b.out, b.panic))
  {
    var t := b.node.log.term;
    GrowTrans(h, g, f, i, t);
    MsgsGrow(g, f, i, t, a.out);
  }

  lemma OutcomeGrow(h: History, g: History, i: NodeID, r: Effect)
    requires Outcome(h, g, i, r)
    ensures Grow(h, g, i, r.node.log.term) && Good(g, i, r.node)
  {
  }

  /** A handler that does nothing. */
  lemma Unchanged(h: History, i: NodeID, n: Node)
    requires Good(h, i, n)
    ensures Outcome(h, h, i, Effect(n, {}, None))
  {
    GrowRefl(h, i, n.log.term);
  }

  lemma Finish(h: History, g: History, i: NodeID, r: Effect)
    requires Grow(h, g, i, r.node.log.term) && Good(g, i, r.node) && MsgsOk(g, r.out) && r.panic.None?
    ensures Outcome(h, g, i, r)
  {
  }

  lemma Conclude(h: History, g: History, i: NodeID, r: Effect)
    requires Grow(h, g, i, r.node.log.term) && HistOk(g) && MsgsOk(g, r.out) && r.panic.None?
    requires r.node.id == i && r.node.peers == g.ids - {i} && Valid(r.node)
    requires Durable(g, i, r.node.log, r.node.applied) && RoleState(g, r.node)
    ensures Outcome(h, g, i, r)
  {
  }

  /** A handler that ends by sending one message. */
  lemma Reply(h: History, m: History, g: History, i: NodeID, n: Node, e: Envelope)
    requires Grow(h, m, i, n.log.term) && Grow(m, g, i, n.log.term) && Good(g, i, n) && MsgOk(g, e)
    ensures Outcome(h, g, i, Effect(n, {e}, None))
  {
    GrowTrans(h, m, g, i, n.log.term);
  }

  // ---------------------------------------------------------------- durable state

  lemma KeepsAllRaise(h: History, i: NodeID, es: seq<Entry>, bound: Term, bound': Term)
    requires AcksOk(h) && KeepsAll(h, i, es, bound)
    requires forall s :: (s, i) in h.acks ==> s < bound
    requires bound <= bound'
    ensures KeepsAll(h, i, es, bound')
  {
    forall s, k | (s, i) in h.acks && s < bound' && AckOk(h, s, i) && 1 <= k <= h.acks[(s, i)]
      ensures Keeps(h, es, s, k, bound')
    {
      assert Keeps(h, es, s, k, bound);
      if !Prefix(LogOf(h, s, k), es) {
        var u :| s < u < bound && Overwrites(h, u, s, k);
        assert s < u < bound' && Overwrites(h, u, s, k);
      }
    }
  }

  lemma DurableParts(h: History, i: NodeID, l: LogState, applied: seq<Entry>)
    requires Durable(h, i, l, applied)
    ensures i in h.ids && WellFormed(l) && l.commitIndex <= |l.entries| && Coherent(h, l.entries) && VoteState(h, i, l)
    ensures AckState(h, i, l) && KeepsAll(h, i, l.entries, l.term + 1) && PastState(h, i, l.term)
    ensures Safe(h, l.entries[..l.commitIndex], l.term) && Safe(h, applied, l.term)
  {
  }

  lemma DurableFrom(h: History, i: NodeID, l: LogState, applied: seq<Entry>)
    requires i in h.ids && WellFormed(l) && l.commitIndex <= |l.entries| && Coherent(h, l.entries) && VoteState(h, i, l)
    requires AckState(h, i, l) && PastState(h, i, l.term)
    requires Safe(h, l.entries[..l.commitIndex], l.term) && Safe(h, applied, l.term)
    ensures Durable(h, i, l, applied)
  {
  }

  /** Node i's own records after growth in its term that adds no vote. */
  lemma OwnRecords(h: History, g: History, i: NodeID, l: LogState, es: seq<Entry>)
    requires VoteState(h, i, l) && AckState(h, i, l) && PastState(h, i, l.term) && Grow(h, g, i, l.term)
    requires g.votes == h.votes && KeepsAll(g, i, es, l.term + 1)
    ensures VoteState(g, i, l) && AckState(g, i, l.(entries := es)) && PastState(g, i, l.term)
  {
  }

  lemma GrowParts(h: History, g: History, i: NodeID, s0: Term)
    requires Grow(h, g, i, s0)
    ensures Widens(h, g, i, s0) && h.ids == g.ids
  {
  }

  lemma SelfDurable(h: History, g: History, i: NodeID, l: LogState, applied: seq<Entry>)
    requires Durable(h, i, l, applied) && Grow(h, g, i, l.term)
    requires g.votes == h.votes && KeepsAll(g, i, l.entries, l.term + 1)
    ensures Durable(g, i, l, applied)
  {
    hide *;
    DurableParts(h, i, l, applied);
    GrowParts(h, g, i, l.term);
    OwnRecords(h, g, i, l, l.entries);
    CoherentGrows(h, g, i, l.term, l.entries);
    SafeGrows(h, g, i, l.term, l.entries[..l.commitIndex], l.term);
    SafeGrows(h, g, i, l.term, applied, l.term);
    DurableFrom(g, i, l, applied);
  }

  /** A vote cast in the node's term. */
  lemma VotedDurable(h: History, g: History, i: NodeID, l: LogState, applied: seq<Entry>, c: NodeID)
    requires HistOk(h) && Durable(h, i, l, applied) && l.vote.None? && Grow(h, g, i, l.term)
    requires g == WithVote(h, l.term, i, Vote(c, l.entries))
    ensures Durable(g, i, l.(vote := Some(c)), applied)
  {
    var l' := l.(vote := Some(c));
    hide *;
    DurableParts(h, i, l, applied);
    GrowParts(h, g, i, l.term);
    VotedRecords(h, g, i, l, c, applied);
    VotedAcks(h, g, i, l, c);
    CoherentGrows(h, g, i, l.term, l.entries);
    SafeGrows(h, g, i, l.term, l.entries[..l.commitIndex], l.term);
    SafeGrows(h, g, i, l.term, applied, l.term);
    DurableFrom(g, i, l', applied);
  }

  lemma VotedAcks(h: History, g: History, i: NodeID, l: LogState, c: NodeID)
    requires HistOk(h) && AckState(h, i, l) && WellFormed(l) && Grow(h, g, i, l.term)
    requires g == WithVote(h, l.term, i, Vote(c, l.entries))
    ensures AckState(g, i, l.(vote := Some(c))) && WellFormed(l.(vote := Some(c)))
  {
    KeepsAllSame(h, g, i, l.term, i, l.entries, l.term + 1);
    hide KeepsAll, Grow, HistOk;
  }

  lemma VotedRecords(h: History, g: History, i: NodeID, l: LogState, c: NodeID, applied: seq<Entry>)
    requires VoteState(h, i, l) && PastState(h, i, l.term) && l.vote.None?
    requires g == WithVote(h, l.term, i, Vote(c, l.entries))
    ensures VoteState(g, i, l.(vote := Some(c))) && PastState(g, i, l.term)
  {
  }

  lemma DurableRaise(h: History, i: NodeID, l: LogState, applied: seq<Entry>, term: Term)
    requires HistOk(h) && Durable(h, i, l, applied) && term > l.term
    ensures Durable(h, i, l.(term := term, vote := None), applied)
  {
    KeepsAllRaise(h, i, l.entries, l.term + 1, term + 1);
    SafeRaise(h, l.entries[..l.commitIndex], l.term, term);
    SafeRaise(h, applied, l.term, term);
  }

  /** Applying committed entries leaves the state machine at the committed prefix. */
  lemma ApplySafe(h: History, l: LogState, applied: seq<Entry>, bound: Term)
    requires HistOk(h) && l.commitIndex <= |l.entries|
    requires Safe(h, l.entries[..l.commitIndex], bound) && Safe(h, applied, bound)
    ensures Safe(h, ApplyCommitted(l, applied), bound)
    ensures |applied| < l.commitIndex ==>
        ApplyCommitted(l, applied) == l.entries[..l.commitIndex] && Prefix(applied, l.entries)
    ensures l.commitIndex <= |ApplyCommitted(l, applied)|
  {
    if |applied| < l.commitIndex {
      SafeComparable(h, applied, l.entries[..l.commitIndex], bound);
      assert applied == l.entries[..l.commitIndex][..|applied|] == l.entries[..|applied|];
      assert applied + l.entries[|applied|..l.commitIndex] == l.entries[..l.commitIndex];
    }
  }

  /** Committing and applying a safe prefix. */
  lemma DurableCommit(h: History, i: NodeID, l: LogState, applied: seq<Entry>, k: Index)
    requires HistOk(h) && Durable(h, i, l, applied) && l.commitIndex < k <= |l.entries|
    requires Safe(h, l.entries[..k], l.term)
    ensures Durable(h, i, Commit(l, k), ApplyCommitted(Commit(l, k), applied))
  {
    ApplySafe(h, Commit(l, k), applied, l.term);
  }

  // ---------------------------------------------------------------- new term

  lemma AbortAllOk(h: History, i: NodeID, n: Node, ids: set<RequestID>)
    requires NodeOk(h, i, n)
    ensures MsgsOk(h, AbortAll(n, ids))
  {
  }

  lemma NewTermOk(h: History, i: NodeID, n: Node, term: Term, timeout: nat)
    requires Good(h, i, n) && !n.role.Halted? && term > n.log.term
    ensures Good(h, i, NewTerm(n, term, timeout).node)
    ensures MsgsOk(h, NewTerm(n, term, timeout).out)
  {
    var r := NewTerm(n, term, timeout);
    DurableRaise(h, i, n.log, n.applied, term);
    assert RoleState(h, r.node);
    forall e | e in r.out ensures MsgOk(h, e) {
      if n.role.Leader? {
        if w :| w in n.role.writes && e == Respond(n, n.role.writes[w].from, n.role.writes[w].id, Abort) {
          assert WriteState(h, n.log.term, w, n.role.writes[w]);
        } else {
          var j :| 0 <= j < |n.role.readQueue| &&
              e == Respond(n, n.role.readQueue[j].from, n.role.readQueue[j].id, Abort);
        }
      }
    }
  }

  // ---------------------------------------------------------------- campaigning

  ghost function WithVote(h: History, t: Term, i: NodeID, vote: Vote): History {
    h.(votes := h.votes[(t, i) := vote])
  }

  lemma CampaignHistory(h: History, i: NodeID, n: Node) returns (g: History)
    requires HistOk(h) && Durable(h, i, n.log, n.applied) && n.id == i
    ensures g == WithVote(h, n.log.term + 1, i, Vote(i, n.log.entries))
    ensures Grow(h, g, i, n.log.term + 1) && HistOk(g)
  {
    var t := n.log.term + 1;
    g := WithVote(h, t, i, Vote(i, n.log.entries));
    CampaignGrows(h, i, n.log);
    CoherentGrows(h, g, i, t, n.log.entries);
    KeepsAllGrows(h, g, i, t, i, n.log.entries, t);
    assert (t, i) in g.votes && VoteOk(g, t, i);
    hide *;
    HistGrowsQuietly(h, g, i, t);
  }

  lemma CampaignGrows(h: History, i: NodeID, l: LogState)
    requires VoteState(h, i, l)
    ensures var g := WithVote(h, l.term + 1, i, Vote(i, l.entries));
            && Grow(h, g, i, l.term + 1) && g.reigns == h.reigns && g.acks == h.acks && g.readAcks == h.readAcks
            && forall s :: (s, i) in h.votes ==> s <= l.term + 1
  {
  }

  lemma CampaignDurable(h: History, g: History, i: NodeID, l: LogState, applied: seq<Entry>)
    requires HistOk(h) && Durable(h, i, l, applied)
    requires g == WithVote(h, l.term + 1, i, Vote(i, l.entries)) && Grow(h, g, i, l.term + 1)
    ensures Durable(g, i, l.(term := l.term + 1, vote := Some(i)), applied)
  {
    hide *;
    DurableRaise(h, i, l, applied, l.term + 1);
    VotedDurable(h, g, i, l.(term := l.term + 1, vote := None), applied, i);
  }

  /** Growth that records no acknowledgement of node v keeps what v's log keeps. */
  lemma KeepsAllSame(h: History, g: History, i: NodeID, s0: Term, v: NodeID, es: seq<Entry>, bound: Term)
    requires HistOk(h) && Grow(h, g, i, s0) && KeepsAll(h, v, es, bound)
    requires (s0, i) in g.acks ==> (s0, i) in h.acks && g.acks[(s0, i)] == h.acks[(s0, i)]
    ensures KeepsAll(g, v, es, bound)
  {
    forall s, k | (s, v) in g.acks && s < bound && AckOk(g, s, v) && 1 <= k <= g.acks[(s, v)]
      ensures Keeps(g, es, s, k, bound)
    {
      assert AckOk(h, s, v);
      KeepsGrows(h, g, i, s0, es, s, k, bound);
    }
  }

  lemma StartCampaignOk(h: History, i: NodeID, n: Node, timeout: nat) returns (g: History)
    requires Good(h, i, n)
    ensures Outcome(h, g, i, StartCampaign(n, timeout))
  {
    var r := StartCampaign(n, timeout);
    g := CampaignHistory(h, i, n);
    CampaignDurable(h, g, i, n.log, n.applied);
    assert RoleState(g, r.node);
    assert NodeOk(g, i, r.node);
    assert MsgsOk(g, r.out);
  }

  lemma IntoCandidateOk(h: History, i: NodeID, n: Node, timeout: nat) returns (g: History)
    requires Good(h, i, n) && n.role.Follower?
    ensures Outcome(h, g, i, IntoCandidate(n, timeout))
  {
    ApplySafe(h, n.log, n.applied, n.log.term);
    var n' := n.(applied := ApplyCommitted(n.log, n.applied));
    assert NodeOk(h, i, n');
    g := StartCampaignOk(h, i, n', timeout);
    GrowRefl(h, i, n.log.term + 1);
    AbortAllOk(h, i, n, n.role.forwarded);
    Chain(h, h, g, i, Effect(n, AbortAll(n, n.role.forwarded), None), StartCampaign(n', timeout));
  }

  // ---------------------------------------------------------------- voting

  lemma GrantHistory(h: History, i: NodeID, n: Node, c: NodeID, lastIndex: Index, lastTerm: Term) returns (g: History)
    requires Good(h, i, n) && n.log.term > 0 && n.log.vote.None?
    requires (n.log.term, c) in h.votes && h.votes[(n.log.term, c)].candidate == c
    requires lastIndex == |h.votes[(n.log.term, c)].log| && lastTerm == LastTerm(h.votes[(n.log.term, c)].log)
    requires UpToDate(lastIndex, lastTerm, n.log.entries)
    ensures g == WithVote(h, n.log.term, i, Vote(c, n.log.entries))
    ensures Grow(h, g, i, n.log.term) && HistOk(g)
  {
    var t := n.log.term;
    g := WithVote(h, t, i, Vote(c, n.log.entries));
    assert Grow(h, g, i, t);
    CoherentGrows(h, g, i, t, n.log.entries);
    assert VoteOk(h, t, c);
    if t in h.reigns {
      assert ReignOk(h, t);
      assert i !in h.reigns[t].electors;
    } else {
      KeepsBelow(h, i, n.log.entries, t);
      KeepsAllSame(h, g, i, t, i, n.log.entries, t);
    }
    assert VoteOk(g, t, i);
    HistGrowsQuietly(h, g, i, t);
  }

  /** While term t has no leader, only leaders before t can have overwritten anything. */
  lemma KeepsBelow(h: History, i: NodeID, es: seq<Entry>, t: Term)
    requires KeepsAll(h, i, es, t + 1) && t !in h.reigns
    ensures KeepsAll(h, i, es, t)
  {
    forall s, k | (s, i) in h.acks && s < t && AckOk(h, s, i) && 1 <= k <= h.acks[(s, i)]
      ensures Keeps(h, es, s, k, t)
    {
      assert Keeps(h, es, s, k, t + 1);
    }
  }

  /** A vote changes nothing else about the voter. */
  lemma FollowerCampaignOk(h: History, i: NodeID, n: Node, e: Envelope) returns (g: History)
    requires Good(h, i, n) && n.role.Follower? && MsgOk(h, e) && e.to == i
    requires e.message.Campaign? && e.term == n.log.term
    ensures Outcome(h, g, i, FollowerCampaign(n, e))
  {
    var r := FollowerCampaign(n, e);
    var t := n.log.term;
    g := h;
    GrowRefl(h, i, t);
    if r.node.log.vote != n.log.vote {
      g := GrantHistory(h, i, n, e.from, e.message.lastIndex, e.message.lastTerm);
      VotedDurable(h, g, i, n.log, n.applied, e.from);
      assert RoleState(g, r.node) by {
        if n.role.leader.Some? { LeadsGrows(h, g, i, t, t, n.role.leader.value); }
      }
    }
  }

  // ---------------------------------------------------------------- following

  lemma LeaderIsNode(h: History, t: Term, l: NodeID)
    requires HistOk(h) && Leads(h, t, l)
    ensures t > 0 && l in h.ids
  {
    assert ReignOk(h, t);
    assert VoteOk(h, t, l);
  }

  /** What the invariant says of any node. */
  lemma NodeFacts(h: History, i: NodeID, n: Node)
    requires Good(h, i, n)
    ensures HistOk(h) && n.id == i && i in h.ids && n.peers == h.ids - {i} && Valid(n)
    ensures Durable(h, i, n.log, n.applied) && RoleState(h, n)
    ensures KeepsAll(h, i, n.log.entries, n.log.term + 1)
    ensures forall s :: (s, i) in h.votes ==> s <= n.log.term
  {
  }

  lemma GoodFrom(h: History, i: NodeID, n: Node)
    requires HistOk(h) && n.id == i && n.peers == h.ids - {i} && Valid(n) && Durable(h, i, n.log, n.applied)
    requires RoleState(h, n)
    ensures Good(h, i, n)
  {
  }

  ghost function Following(h: History, t: Term, i: NodeID): History {
    h.(follows := h.follows + {(t, i)})
  }

  /** Following a leader is on record. */
  lemma FollowingOk(h: History, i: NodeID, n: Node)
    requires Good(h, i, n)
    ensures var g := Following(h, n.log.term, i);
            && Grow(h, g, i, n.log.term) && HistOk(g) && Durable(g, i, n.log, n.applied)
            && g.ids == h.ids && (n.log.term, i) in g.follows && g.reigns == h.reigns && g.excused == h.excused
  {
    var t := n.log.term;
    var g := Following(h, t, i);
    assert Grow(h, g, i, t) && g.votes == h.votes && g.reigns == h.reigns && g.acks == h.acks &&
        g.readAcks == h.readAcks;
    assert (t, i) in g.follows && g.ids == h.ids && g.excused == h.excused;
    hide *;
    NodeFacts(h, i, n);
    HistGrowsQuietly(h, g, i, t);
    KeepsAllSame(h, g, i, t, i, n.log.entries, t + 1);
    SelfDurable(h, g, i, n.log, n.applied);
  }

  lemma HearLeaderOk(h: History, i: NodeID, n: Node, from: NodeID) returns (g: History)
    requires Good(h, i, n) && n.role.Follower? && Leads(h, n.log.term, from) && from != i
    ensures g == Following(h, n.log.term, i)
    ensures HearLeader(n, from).panic.None?
    ensures Outcome(h, g, i, HearLeader(n, from))
  {
    var r := HearLeader(n, from);
    g := Following(h, n.log.term, i);
    LeaderIsNode(h, n.log.term, from);
    HearLeaderRole(h, i, n, from);
    hide *;
    NodeFacts(h, i, n);
    FollowingOk(h, i, n);
    Conclude(h, g, i, r);
  }

  lemma HearLeaderRole(h: History, i: NodeID, n: Node, from: NodeID)
    requires Good(h, i, n) && n.role.Follower? && Leads(h, n.log.term, from) && from != i && from in h.ids
    requires n.log.term > 0
    ensures var g, r := Following(h, n.log.term, i), HearLeader(n, from);
            && RoleState(g, r.node) && Valid(r.node) && r.panic.None? && MsgsOk(g, r.out)
            && r.node.id == n.id && r.node.peers == n.peers && r.node.log == n.log && r.node.applied == n.applied
  {
  }

  /** Growth of the votes and follower records alone. */
  lemma HistGrowsQuietly(h: History, g: History, i: NodeID, t: Term)
    requires HistOk(h) && Grow(h, g, i, t)
    requires forall s :: (s, i) in h.votes ==> s <= t
    requires g.reigns == h.reigns && g.acks == h.acks && g.readAcks == h.readAcks
    requires (t, i) in g.votes && (t, i) !in h.votes ==> VoteOk(g, t, i)
    ensures HistOk(g)
  {
    if (t, i) in g.acks { assert AckOk(h, t, i); assert AckOk(g, t, i); }
    if (t, i) in h.votes { VoteGrows(h, g, i, t, t, i); }
    if Leads(g, t, i) {
      assert ReignOk(h, t);
      CoherentGrows(h, g, i, t, h.reigns[t].log);
      assert ReignOk(g, t);
    }
    HistGrows(h, g, i, t);
  }
}
