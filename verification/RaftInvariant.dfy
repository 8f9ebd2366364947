/** What is true of a single node and of a single message, given the history. Each of these
    survives any growth of the history that another node causes. */
module RaftInvariant {
  import opened Basics
  import opened RaftMessage
  import opened RaftLog
  import opened RaftNode
  import opened RaftHistory

  // ---------------------------------------------------------------- nodes

  ghost predicate VoteState(h: History, i: NodeID, l: LogState) {
    && (forall t :: (t, i) in h.votes ==> t <= l.term)
    && ((l.term, i) in h.votes ==> l.vote == Some(h.votes[(l.term, i)].candidate))
    && (l.vote.Some? ==> (l.term, i) in h.votes)
  }

  ghost predicate AckState(h: History, i: NodeID, l: LogState) {
    && (forall s :: (s, i) in h.acks ==> s <= l.term)
    && KeepsAll(h, i, l.entries, l.term + 1)
  }

  ghost predicate PastState(h: History, i: NodeID, term: Term) {
    && (forall t :: t in h.reigns && h.reigns[t].leader == i ==> t <= term)
    && (forall t :: (t, i) in h.follows ==> t <= term)
    && (forall t :: (t, i) in h.readAcks ==> t <= term)
  }

  /** Node i leads term t. */
  ghost predicate Leads(h: History, t: Term, i: NodeID) {
    t in h.reigns && h.reigns[t].leader == i
  }

  ghost predicate ProgressState(h: History, t: Term, p: NodeID, pr: Progress) {
    && (pr.matchIndex > 0 ==> (t, p) in h.acks && pr.matchIndex <= h.acks[(t, p)])
    && (pr.readSeq > 0 ==> (t, p) in h.readAcks && pr.readSeq <= h.readAcks[(t, p)])
  }

  /** A client of node i's term: i itself, or a follower of i. */
  ghost predicate Served(h: History, t: Term, i: NodeID, from: NodeID) {
    from in h.ids && (from == i || (t, from) in h.follows)
  }

  /** A pending write is the one the leader of t took on at that index. */
  ghost predicate WriteState(h: History, t: Term, index: Index, w: Write)
    requires t in h.reigns
  {
    && index in h.reigns[t].writes && h.reigns[t].writes[index] == w.id
    && Served(h, t, h.reigns[t].leader, w.from)
  }

  /** A queued read is the one the leader of t took on with that sequence number. */
  ghost predicate ReadState(h: History, t: Term, applied: nat, q: Read)
    requires t in h.reigns
  {
    && q.seqNo in h.reigns[t].asks
    && h.reigns[t].asks[q.seqNo].id == q.id && h.reigns[t].asks[q.seqNo].command == q.command
    && h.reigns[t].asks[q.seqNo].applied <= applied
    && Served(h, t, h.reigns[t].leader, q.from)
  }

  ghost predicate LeaderState(h: History, n: Node)
    requires n.role.Leader?
  {
    var t := n.log.term;
    && Leads(h, t, n.id)
    && h.reigns[t].log == n.log.entries
    && h.reigns[t].applied == |n.applied|
    && h.reigns[t].readSeq == n.role.readSeq
    && (forall p :: p in n.role.progress ==> ProgressState(h, t, p, n.role.progress[p]))
    && (forall k :: k in n.role.writes ==> WriteState(h, t, k, n.role.writes[k]))
    && (forall j :: 0 <= j < |n.role.readQueue| ==> ReadState(h, t, |n.applied|, n.role.readQueue[j]))
  }

  ghost predicate CandidateState(h: History, n: Node)
    requires n.role.Candidate?
  {
    var t := n.log.term;
    && n.role.votes <= h.ids
    && (forall v :: v in n.role.votes ==> (t, v) in h.votes && h.votes[(t, v)].candidate == n.id)
    && (t, n.id) in h.votes && n.log.entries == h.votes[(t, n.id)].log
    && !Leads(h, t, n.id)
  }

  ghost predicate FollowerState(h: History, n: Node)
    requires n.role.Follower?
  {
    n.role.leader.Some? ==> Leads(h, n.log.term, n.role.leader.value) && (n.log.term, n.id) in h.follows
  }

  /** A node that is not excused (it never restarted, and sends at least one entry per
      append) has not left the role it took in its term, and has not panicked. */
  ghost predicate RoleKept(h: History, n: Node) {
    n.id !in h.excused ==>
      && n.opts.maxAppendEntries > 0
      && !n.role.Halted?
      && (Leads(h, n.log.term, n.id) ==> n.role.Leader?)
      && ((n.log.term, n.id) in h.follows ==> n.role.Follower? && n.role.leader.Some?)
  }

  ghost predicate RoleState(h: History, n: Node) {
    && RoleKept(h, n)
    && match n.role
       case Follower(_, _, _, _) => FollowerState(h, n)
       case Candidate(_, _, _) => CandidateState(h, n)
       case Leader(_, _, _, _, _) => LeaderState(h, n)
       case Halted => true
  }

  /** The part of a node's state that survives a restart. */
  ghost predicate Durable(h: History, i: NodeID, l: LogState, applied: seq<Entry>) {
    && i in h.ids
    && WellFormed(l)
    && Coherent(h, l.entries)
    && VoteState(h, i, l)
    && AckState(h, i, l)
    && PastState(h, i, l.term)
    && Safe(h, l.entries[..l.commitIndex], l.term)
    && Safe(h, applied, l.term)
  }

  ghost predicate NodeOk(h: History, i: NodeID, n: Node) {
    && n.id == i
    && n.peers == h.ids - {i}
    && Valid(n)
    && Durable(h, i, n.log, n.applied)
    && RoleState(h, n)
  }

  // ---------------------------------------------------------------- messages

  ghost predicate AppendOk(h: History, t: Term, base: Index, baseTerm: Term, es: seq<Entry>) {
    && t in h.reigns
    && base + |es| <= |h.reigns[t].log|
    && es == h.reigns[t].log[base..base + |es|]
    && baseTerm == TermAt(h.reigns[t].log, base)
  }

  /** A result that the leader of t sent: the state after entries it had committed and
      applied, the last of them of its own term. */
  ghost predicate ResultOk(h: History, t: Term, state: seq<Entry>) {
    && t in h.reigns
    && state != [] && LastTerm(state) == t
    && Prefix(state, h.reigns[t].log)
    && Safe(h, state, t)
    && |state| <= h.reigns[t].applied
  }

  ghost predicate WriteResultOk(h: History, t: Term, id: RequestID, state: seq<Entry>) {
    && ResultOk(h, t, state)
    && |state| in h.reigns[t].writes && h.reigns[t].writes[|state|] == id
  }

  /** A majority knew no later term than t after the leader took on read q. */
  ghost predicate ConfirmedBy(h: History, t: Term, q: nat, c: set<NodeID>)
    requires t in h.reigns
  {
    && Majority(c, h.ids)
    && forall v :: v in c ==> v == h.reigns[t].leader || ((t, v) in h.readAcks && h.readAcks[(t, v)] >= q)
  }

  ghost predicate ReadResultBy(h: History, t: Term, id: RequestID, command: Command, applied: nat, q: nat,
      c: set<NodeID>)
    requires t in h.reigns
  {
    && q in h.reigns[t].asks
    && h.reigns[t].asks[q].id == id && h.reigns[t].asks[q].command == command
    && h.reigns[t].asks[q].applied <= applied
    && ConfirmedBy(h, t, q, c)
  }

  ghost predicate ReadResultOk(h: History, t: Term, id: RequestID, command: Command, state: seq<Entry>) {
    && ResultOk(h, t, state)
    && exists q: nat, c :: ReadResultBy(h, t, id, command, |state|, q, c)
  }

  ghost predicate MsgOk(h: History, e: Envelope) {
    && e.from in h.ids
    && e.to in h.ids
    && match e.message
       case Campaign(li, lt) =>
         && e.term > 0
         && (e.term, e.from) in h.votes
         && var own := h.votes[(e.term, e.from)];
         && own.candidate == e.from && li == |own.log| && lt == LastTerm(own.log)
       case CampaignResponse(vote) =>
         vote ==> (e.term, e.from) in h.votes && h.votes[(e.term, e.from)].candidate == e.to
       case Heartbeat(last, commit, q) =>
         && Leads(h, e.term, e.from)
         && commit <= last <= |h.reigns[e.term].log|
         && Safe(h, LogOf(h, e.term, commit), e.term)
         && q <= h.reigns[e.term].readSeq
       case HeartbeatResponse(k, q) =>
         && Leads(h, e.term, e.to)
         && (k > 0 ==> (e.term, e.from) in h.acks && k <= h.acks[(e.term, e.from)])
         && (q > 0 ==> (e.term, e.from) in h.readAcks && q <= h.readAcks[(e.term, e.from)])
       case Append(base, baseTerm, es) =>
         && Leads(h, e.term, e.from)
         && AppendOk(h, e.term, base, baseTerm, es)
         && (base > 0 || es != [] || e.from in h.excused)
       case AppendResponse(k, reject) =>
         && Leads(h, e.term, e.to)
         && (k > 0 ==> (e.term, e.from) in h.acks && k <= h.acks[(e.term, e.from)])
         && reject <= |h.reigns[e.term].log|
         && (k == 0 || reject == 0)
         && (k > 0 || reject > 0 || e.to in h.excused)
       case ReadConfirm(q) =>
         Leads(h, e.term, e.from) && q <= h.reigns[e.term].readSeq
       case ReadConfirmed(q) =>
         && Leads(h, e.term, e.to)
         && (q > 0 ==> (e.term, e.from) in h.readAcks && q <= h.readAcks[(e.term, e.from)])
       case ClientRequest(id, request) =>
         && Leads(h, e.term, e.to)
         && (e.term, e.from) in h.follows
         && (id, request) in h.submitted
       case ClientResponse(id, response) =>
         && (e.from == e.to || (Leads(h, e.term, e.from) && (e.term, e.to) in h.follows))
         && (response.WriteResponse? ==> WriteResultOk(h, e.term, id, response.state))
         && (response.ReadResponse? ==> ReadResultOk(h, e.term, id, response.command, response.state))
  }

  ghost predicate MsgsOk(h: History, out: set<Envelope>) {
    forall e :: e in out ==> MsgOk(h, e)
  }

  // ---------------------------------------------------------------- growth

  ghost predicate ReignGrows(a: Reign, b: Reign, t: Term) {
    && a.leader == b.leader
    && a.electors == b.electors
    && a.applied <= b.applied
    && a.readSeq <= b.readSeq
    && Prefix(a.log, b.log)
    && (forall k :: |a.log| <= k < |b.log| ==> b.log[k].term == t)
    && RequestsGrow(a, b)
  }

  /** Requests taken on stay on record; new ones come after the log and the state so far. */
  ghost predicate RequestsGrow(a: Reign, b: Reign) {
    && (forall k :: k in a.writes ==> k in b.writes && b.writes[k] == a.writes[k])
    && (forall k :: k in b.writes && k !in a.writes ==> k > |a.log|)
    && (forall q :: q in a.asks ==> q in b.asks && b.asks[q] == a.asks[q])
    && (forall q :: q in b.asks && q !in a.asks ==> q > a.readSeq && b.asks[q].applied >= a.applied)
  }

  ghost predicate ReignsGrow(h: History, g: History, i: NodeID, s0: Term) {
    && (forall t :: t in h.reigns ==> t in g.reigns && ReignGrows(h.reigns[t], g.reigns[t], t))
    && (forall t :: t in g.reigns ==>
        (t == s0 && g.reigns[t].leader == i) || (t in h.reigns && g.reigns[t] == h.reigns[t]))
  }

  ghost predicate VotesGrow(h: History, g: History, i: NodeID, s0: Term) {
    && (forall x :: x in h.votes ==> x in g.votes && g.votes[x] == h.votes[x])
    && (forall x :: x in g.votes ==> x in h.votes || x == (s0, i))
  }

  /** Counters per term and node only rise, and only the one of node i in term s0. */
  ghost predicate CountsGrow(a: map<(Term, NodeID), nat>, b: map<(Term, NodeID), nat>, i: NodeID, s0: Term) {
    && (forall x :: x in a ==> x in b && a[x] <= b[x])
    && (forall x :: x in b && x != (s0, i) ==> x in a && a[x] == b[x])
  }

  ghost predicate FollowsGrow(a: set<(Term, NodeID)>, b: set<(Term, NodeID)>, i: NodeID, s0: Term) {
    a <= b <= a + {(s0, i)}
  }

  /** The history grows by what node i does in term s0, and by new requests. */
  ghost predicate Widens(h: History, g: History, i: NodeID, s0: Term) {
    && h.ids == g.ids
    && ReignsGrow(h, g, i, s0)
    && VotesGrow(h, g, i, s0)
    && CountsGrow(h.acks, g.acks, i, s0)
    && FollowsGrow(h.follows, g.follows, i, s0)
    && CountsGrow(h.readAcks, g.readAcks, i, s0)
    && h.submitted <= g.submitted
    && h.handed <= g.handed
    && h.excused == g.excused
  }

  /** The history grows by what node i does in term s0. */
  ghost predicate Grow(h: History, g: History, i: NodeID, s0: Term) {
    Widens(h, g, i, s0) && h.submitted == g.submitted && h.handed == g.handed
  }

  lemma GrowRefl(h: History, i: NodeID, s0: Term)
    ensures Grow(h, h, i, s0)
  {
  }

  lemma GrowTrans(a: History, b: History, c: History, i: NodeID, s0: Term)
    requires Grow(a, b, i, s0) && Grow(b, c, i, s0)
    ensures Grow(a, c, i, s0)
  {
    ReignsGrowTrans(a, b, c, i, s0);
    CountsGrowTrans(a.acks, b.acks, c.acks, i, s0);
    CountsGrowTrans(a.readAcks, b.readAcks, c.readAcks, i, s0);
  }

  lemma ReignsGrowTrans(a: History, b: History, c: History, i: NodeID, s0: Term)
    requires ReignsGrow(a, b, i, s0) && ReignsGrow(b, c, i, s0)
    ensures ReignsGrow(a, c, i, s0)
  {
    forall t | t in a.reigns ensures t in c.reigns && ReignGrows(a.reigns[t], c.reigns[t], t) {
      ReignGrowsTrans(a.reigns[t], b.reigns[t], c.reigns[t], t);
    }
  }

  lemma ReignGrowsTrans(a: Reign, b: Reign, c: Reign, t: Term)
    requires ReignGrows(a, b, t) && ReignGrows(b, c, t)
    ensures ReignGrows(a, c, t)
  {
    PrefixTransitive(a.log, b.log, c.log);
    forall k | |a.log| <= k < |c.log| ensures c.log[k].term == t {
      if k < |b.log| { assert c.log[k] == b.log[k]; }
    }
  }

  lemma CountsGrowTrans(a: map<(Term, NodeID), nat>, b: map<(Term, NodeID), nat>, c: map<(Term, NodeID), nat>,
      i: NodeID, s0: Term)
    requires CountsGrow(a, b, i, s0) && CountsGrow(b, c, i, s0)
    ensures CountsGrow(a, c, i, s0)
  {
  }

  /** Everything recorded stays recorded. */
  ghost predicate HistLater(h: History, g: History) {
    && h.ids == g.ids && h.excused == g.excused && h.submitted <= g.submitted && h.handed <= g.handed
    && (forall t {:trigger ReignLater(h, g, t)} :: t in h.reigns ==> ReignLater(h, g, t))
    && (forall x :: x in h.acks ==> x in g.acks && h.acks[x] <= g.acks[x])
  }

  ghost predicate ReignLater(h: History, g: History, t: Term)
    requires t in h.reigns
  {
    t in g.reigns && ReignGrows(h.reigns[t], g.reigns[t], t)
  }

  lemma WidensLater(h: History, g: History, i: NodeID, s0: Term)
    requires Widens(h, g, i, s0)
    ensures HistLater(h, g)
  {
    forall t | t in h.reigns ensures ReignLater(h, g, t) {
      assert ReignGrows(h.reigns[t], g.reigns[t], t);
    }
  }

  lemma HistLaterTrans(a: History, b: History, c: History)
    requires HistLater(a, b) && HistLater(b, c)
    ensures HistLater(a, c)
  {
    forall t | t in a.reigns ensures ReignLater(a, c, t) {
      assert ReignLater(a, b, t) && ReignLater(b, c, t);
      ReignGrowsTrans(a.reigns[t], b.reigns[t], c.reigns[t], t);
    }
  }

  lemma LogOfLater(h: History, g: History, s: Term, k: nat)
    requires HistLater(h, g) && s in h.reigns && k <= |h.reigns[s].log|
    ensures s in g.reigns && k <= |g.reigns[s].log| && LogOf(g, s, k) == LogOf(h, s, k)
  {
    assert ReignLater(h, g, s);
    assert g.reigns[s].log[..k] == g.reigns[s].log[..|h.reigns[s].log|][..k];
  }

  lemma CoherentLater(h: History, g: History, es: seq<Entry>)
    requires HistLater(h, g) && Coherent(h, es)
    ensures Coherent(g, es)
  {
    forall k | 0 <= k < |es| ensures CoherentAt(g, es, k) {
      assert CoherentAt(h, es, k);
      LogOfLater(h, g, es[k].term, k + 1);
    }
  }

  lemma ChosenLater(h: History, g: History, s: Term, k: nat)
    requires HistLater(h, g) && Chosen(h, s, k)
    ensures Chosen(g, s, k)
  {
    var q :| ChosenBy(h, s, k, q);
    LogOfLater(h, g, s, k);
    assert g.reigns[s].log[k - 1] == LogOf(g, s, k)[k - 1];
    assert h.reigns[s].log[k - 1] == LogOf(h, s, k)[k - 1];
    assert ChosenBy(g, s, k, q);
  }

  lemma SafeLater(h: History, g: History, es: seq<Entry>, bound: Term)
    requires HistLater(h, g) && Safe(h, es, bound)
    ensures Safe(g, es, bound)
  {
    if es != [] {
      var s: Term, k: nat :| s <= bound && SafeBy(h, es, s, k);
      ChosenLater(h, g, s, k);
      LogOfLater(h, g, s, |es|);
      assert SafeBy(g, es, s, k);
    }
  }

  lemma LogOfGrows(h: History, g: History, i: NodeID, s0: Term, s: Term, k: nat)
    requires Widens(h, g, i, s0) && s in h.reigns && k <= |h.reigns[s].log|
    ensures s in g.reigns && k <= |g.reigns[s].log| && LogOf(g, s, k) == LogOf(h, s, k)
  {
    WidensLater(h, g, i, s0);
    LogOfLater(h, g, s, k);
  }

  lemma CoherentGrows(h: History, g: History, i: NodeID, s0: Term, es: seq<Entry>)
    requires Widens(h, g, i, s0) && Coherent(h, es)
    ensures Coherent(g, es)
  {
    WidensLater(h, g, i, s0);
    CoherentLater(h, g, es);
  }

  /** Entries of a later term cannot complete a prefix that was missing. */
  lemma StillNoPrefix(p: seq<Entry>, a: seq<Entry>, b: seq<Entry>, s: Term, u: Term)
    requires Prefix(a, b) && !Prefix(p, a) && s < u
    requires forall k :: 0 <= k < |p| ==> p[k].term <= s
    requires forall k :: |a| <= k < |b| ==> b[k].term == u
    ensures !Prefix(p, b)
  {
    if |a| < |p| <= |b| { assert b[..|p|][|a|] == b[|a|]; }
    if Prefix(p, b) && |p| <= |a| { PrefixesNest(p, a, b); }
  }

  lemma OverwritesGrows(h: History, g: History, i: NodeID, s0: Term, u: Term, s: Term, k: nat)
    requires HistOk(h) && Widens(h, g, i, s0) && s in h.reigns && k <= |h.reigns[s].log|
    requires s < u && Overwrites(h, u, s, k)
    ensures s in g.reigns && k <= |g.reigns[s].log| && Overwrites(g, u, s, k)
  {
    LogOfGrows(h, g, i, s0, s, k);
    assert ReignOk(h, s) && ReignGrows(h.reigns[u], g.reigns[u], u);
    forall j | 0 <= j < k ensures LogOf(h, s, k)[j].term <= s { TermsBounded(h.reigns[s].log, j); }
    StillNoPrefix(LogOf(h, s, k), h.reigns[u].log, g.reigns[u].log, s, u);
  }

  lemma KeepsGrows(h: History, g: History, i: NodeID, s0: Term, es: seq<Entry>, s: Term, k: nat, bound: Term)
    requires HistOk(h) && Widens(h, g, i, s0) && s in h.reigns && k <= |h.reigns[s].log|
    requires Keeps(h, es, s, k, bound)
    ensures s in g.reigns && k <= |g.reigns[s].log| && Keeps(g, es, s, k, bound)
  {
    LogOfGrows(h, g, i, s0, s, k);
    if !Prefix(LogOf(h, s, k), es) {
      var u :| s < u < bound && Overwrites(h, u, s, k);
      OverwritesGrows(h, g, i, s0, u, s, k);
    }
  }

  /** What another node acknowledged is unaffected. */
  lemma KeepsAllGrows(h: History, g: History, i: NodeID, s0: Term, v: NodeID, es: seq<Entry>, bound: Term)
    requires HistOk(h) && Widens(h, g, i, s0) && KeepsAll(h, v, es, bound)
    requires v != i || bound <= s0
    ensures KeepsAll(g, v, es, bound)
  {
    forall s, k | (s, v) in g.acks && s < bound && AckOk(g, s, v) && 1 <= k <= g.acks[(s, v)]
      ensures Keeps(g, es, s, k, bound)
    {
      assert (s, v) != (s0, i);
      assert AckOk(h, s, v);
      KeepsGrows(h, g, i, s0, es, s, k, bound);
    }
  }

  lemma ChosenGrows(h: History, g: History, i: NodeID, s0: Term, s: Term, k: nat)
    requires Widens(h, g, i, s0) && Chosen(h, s, k)
    ensures Chosen(g, s, k)
  {
    WidensLater(h, g, i, s0);
    ChosenLater(h, g, s, k);
  }

  lemma SafeGrows(h: History, g: History, i: NodeID, s0: Term, es: seq<Entry>, bound: Term)
    requires Widens(h, g, i, s0) && Safe(h, es, bound)
    ensures Safe(g, es, bound)
  {
    WidensLater(h, g, i, s0);
    SafeLater(h, g, es, bound);
  }

  lemma SafeRaise(h: History, es: seq<Entry>, bound: Term, bound': Term)
    requires Safe(h, es, bound) && bound <= bound'
    ensures Safe(h, es, bound')
  {
    if es != [] {
      var s: Term, k: nat :| s <= bound && SafeBy(h, es, s, k);
      assert s <= bound' && SafeBy(h, es, s, k);
    }
  }

  // ---------------------------------------------------------------- other nodes are unaffected

  lemma LeadsGrows(h: History, g: History, i: NodeID, s0: Term, t: Term, j: NodeID)
    requires Widens(h, g, i, s0)
    ensures Leads(h, t, j) ==> Leads(g, t, j)
    ensures j != i && Leads(g, t, j) ==> Leads(h, t, j)
  {
    if t in h.reigns { assert ReignGrows(h.reigns[t], g.reigns[t], t); }
  }

  lemma DurableGrows(h: History, g: History, i: NodeID, s0: Term, j: NodeID, l: LogState, applied: seq<Entry>)
    requires HistOk(h) && Widens(h, g, i, s0) && j != i && Durable(h, j, l, applied)
    ensures Durable(g, j, l, applied)
  {
    CoherentGrows(h, g, i, s0, l.entries);
    SafeGrows(h, g, i, s0, l.entries[..l.commitIndex], l.term);
    SafeGrows(h, g, i, s0, applied, l.term);
    RecordsGrow(h, g, i, s0, j, l);
  }

  lemma RecordsGrow(h: History, g: History, i: NodeID, s0: Term, j: NodeID, l: LogState)
    requires HistOk(h) && Widens(h, g, i, s0) && j != i
    requires VoteState(h, j, l) && AckState(h, j, l) && PastState(h, j, l.term)
    ensures VoteState(g, j, l) && AckState(g, j, l) && PastState(g, j, l.term)
  {
    KeepsAllGrows(h, g, i, s0, j, l.entries, l.term + 1);
  }

  lemma LeaderGrows(h: History, g: History, i: NodeID, s0: Term, n: Node)
    requires Widens(h, g, i, s0) && n.role.Leader? && n.id != i && LeaderState(h, n)
    ensures LeaderState(g, n)
  {
    var t := n.log.term;
    LeadsGrows(h, g, i, s0, t, n.id);
    assert g.reigns[t] == h.reigns[t];
    forall p | p in n.role.progress ensures ProgressState(g, t, p, n.role.progress[p]) {
      assert ProgressState(h, t, p, n.role.progress[p]);
    }
    forall k | k in n.role.writes ensures WriteState(g, t, k, n.role.writes[k]) {
      assert WriteState(h, t, k, n.role.writes[k]);
    }
  }

  lemma RoleGrows(h: History, g: History, i: NodeID, s0: Term, n: Node)
    requires Widens(h, g, i, s0) && n.id != i && RoleState(h, n)
    ensures RoleState(g, n)
  {
    LeadsGrows(h, g, i, s0, n.log.term, n.id);
    match n.role
    case Follower(leader, _, _, _) =>
      if leader.Some? { LeadsGrows(h, g, i, s0, n.log.term, leader.value); }
    case Candidate(_, _, _) =>
    case Leader(_, _, _, _, _) => LeaderGrows(h, g, i, s0, n);
    case Halted =>
  }

  lemma NodeGrows(h: History, g: History, i: NodeID, s0: Term, j: NodeID, n: Node)
    requires HistOk(h) && Widens(h, g, i, s0) && j != i && NodeOk(h, j, n)
    ensures NodeOk(g, j, n)
  {
    DurableGrows(h, g, i, s0, j, n.log, n.applied);
    RoleGrows(h, g, i, s0, n);
  }

  lemma ResultGrows(h: History, g: History, i: NodeID, s0: Term, t: Term, state: seq<Entry>)
    requires Widens(h, g, i, s0) && ResultOk(h, t, state)
    ensures ResultOk(g, t, state)
  {
    SafeGrows(h, g, i, s0, state, t);
    assert ReignGrows(h.reigns[t], g.reigns[t], t);
    PrefixTransitive(state, h.reigns[t].log, g.reigns[t].log);
  }

  lemma ReadResultGrows(h: History, g: History, i: NodeID, s0: Term, t: Term, id: RequestID, command: Command,
      state: seq<Entry>)
    requires Widens(h, g, i, s0) && ReadResultOk(h, t, id, command, state)
    ensures ReadResultOk(g, t, id, command, state)
  {
    ResultGrows(h, g, i, s0, t, state);
    assert ReignGrows(h.reigns[t], g.reigns[t], t);
    var q: nat, c :| ReadResultBy(h, t, id, command, |state|, q, c);
    assert ReadResultBy(g, t, id, command, |state|, q, c);
  }

  lemma HeartbeatGrows(h: History, g: History, i: NodeID, s0: Term, t: Term, commit: Index)
    requires Widens(h, g, i, s0) && t in h.reigns && commit <= |h.reigns[t].log| && Safe(h, LogOf(h, t, commit), t)
    ensures t in g.reigns && commit <= |g.reigns[t].log| && Safe(g, LogOf(g, t, commit), t)
  {
    LogOfGrows(h, g, i, s0, t, commit);
    SafeGrows(h, g, i, s0, LogOf(h, t, commit), t);
  }

  lemma AppendGrows(h: History, g: History, i: NodeID, s0: Term, t: Term, base: Index, baseTerm: Term, es: seq<Entry>)
    requires Widens(h, g, i, s0) && AppendOk(h, t, base, baseTerm, es)
    ensures AppendOk(g, t, base, baseTerm, es)
  {
    var k := base + |es|;
    LogOfGrows(h, g, i, s0, t, k);
    SameSlice(h.reigns[t].log, g.reigns[t].log, base, k);
  }

  lemma SameSlice(a: seq<Entry>, b: seq<Entry>, base: Index, k: Index)
    requires base <= k <= |a| && k <= |b| && a[..k] == b[..k]
    ensures a[base..k] == b[base..k] && TermAt(a, base) == TermAt(b, base)
  {
    assert a[base..k] == a[..k][base..] && b[base..k] == b[..k][base..];
    if base > 0 { assert a[base - 1] == a[..k][base - 1] && b[base - 1] == b[..k][base - 1]; }
  }

  lemma MsgGrows(h: History, g: History, i: NodeID, s0: Term, e: Envelope)
    requires Widens(h, g, i, s0) && MsgOk(h, e)
    ensures MsgOk(g, e)
  {
    LeadsGrows(h, g, i, s0, e.term, e.from);
    LeadsGrows(h, g, i, s0, e.term, e.to);
    if e.term in h.reigns { assert ReignGrows(h.reigns[e.term], g.reigns[e.term], e.term); }
    match e.message
    case Heartbeat(last, commit, q) => HeartbeatGrows(h, g, i, s0, e.term, commit);
    case Append(base, baseTerm, es) => AppendGrows(h, g, i, s0, e.term, base, baseTerm, es);
    case ClientResponse(id, response) =>
      if response.WriteResponse? { ResultGrows(h, g, i, s0, e.term, response.state); }
      if response.ReadResponse? { ReadResultGrows(h, g, i, s0, e.term, id, response.command, response.state); }
    case _ =>
  }

  lemma MsgsGrow(h: History, g: History, i: NodeID, s0: Term, out: set<Envelope>)
    requires Widens(h, g, i, s0) && MsgsOk(h, out)
    ensures MsgsOk(g, out)
  {
    forall e | e in out ensures MsgOk(g, e) { MsgGrows(h, g, i, s0, e); }
  }

  // ---------------------------------------------------------------- the history stays good

  lemma VoteGrows(h: History, g: History, i: NodeID, s0: Term, t: Term, v: NodeID)
    requires HistOk(h) && Widens(h, g, i, s0) && (t, v) in h.votes
    requires v != i || t <= s0
    ensures VoteOk(g, t, v)
  {
    assert VoteOk(h, t, v);
    var vote := h.votes[(t, v)];
    CoherentGrows(h, g, i, s0, vote.log);
    if t !in g.reigns || v in g.reigns[t].electors {
      if t in h.reigns { assert ReignGrows(h.reigns[t], g.reigns[t], t); }
      KeepsAllGrows(h, g, i, s0, v, vote.log, t);
    }
  }

  lemma ReignUnchanged(h: History, g: History, i: NodeID, s0: Term, t: Term)
    requires HistOk(h) && Widens(h, g, i, s0) && t in h.reigns && g.reigns[t] == h.reigns[t]
    requires t != s0 || h.reigns[t].leader != i
    ensures ReignOk(g, t)
  {
    assert ReignOk(h, t);
    CoherentGrows(h, g, i, s0, h.reigns[t].log);
  }

  /** Growth keeps the history good if the new reign, vote and acknowledgement are. */
  lemma HistGrows(h: History, g: History, i: NodeID, s0: Term)
    requires HistOk(h) && Widens(h, g, i, s0)
    requires forall t :: (t, i) in h.votes ==> t <= s0
    requires (s0, i) in g.acks ==> AckOk(g, s0, i)
    requires (s0, i) in g.votes ==> VoteOk(g, s0, i)
    requires Leads(g, s0, i) ==> ReignOk(g, s0)
    requires (s0, i) in g.readAcks ==> s0 in g.reigns && g.readAcks[(s0, i)] <= g.reigns[s0].readSeq
    ensures HistOk(g)
  {
    forall s, v | (s, v) in g.acks ensures AckOk(g, s, v) {
      if (s, v) != (s0, i) {
        assert AckOk(h, s, v);
        assert ReignGrows(h.reigns[s], g.reigns[s], s);
      }
    }
    forall t, v | (t, v) in g.votes ensures VoteOk(g, t, v) {
      if (t, v) != (s0, i) { VoteGrows(h, g, i, s0, t, v); }
    }
    forall t | t in g.reigns ensures ReignOk(g, t) {
      if !(t == s0 && g.reigns[t].leader == i) { ReignUnchanged(h, g, i, s0, t); }
    }
    forall t, v | (t, v) in g.readAcks ensures t in g.reigns && g.readAcks[(t, v)] <= g.reigns[t].readSeq {
      if (t, v) != (s0, i) { assert ReignGrows(h.reigns[t], g.reigns[t], t); }
    }
  }
}
