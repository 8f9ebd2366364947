/** A follower's acknowledgements: heartbeats, appends and read confirmations. */
module RaftReplica {
  import opened Basics
  import opened RaftMessage
  import opened RaftLog
  import opened RaftNode
  import opened RaftHistory
  import opened RaftInvariant
  import opened RaftFollower

  /** A counter raised to at least k; 0 records nothing. */
  function Raise(m: map<(Term, NodeID), nat>, x: (Term, NodeID), k: nat): (r: map<(Term, NodeID), nat>)
    ensures CountsGrow(m, r, x.1, x.0)
    ensures k > 0 ==> x in r && k <= r[x]
    ensures x in r ==> (x in m && r[x] == m[x]) || (k > 0 && r[x] == k)
  {
    if k == 0 || (x in m && m[x] >= k) then m else m[x := k]
  }

  ghost function Acked(h: History, t: Term, i: NodeID, k: Index, q: nat): History {
    h.(acks := Raise(h.acks, (t, i), k), readAcks := Raise(h.readAcks, (t, i), q))
  }

  lemma AckedHistory(h: History, t: Term, i: NodeID, k: Index, q: nat)
    requires HistOk(h) && i in h.ids && t in h.reigns && h.reigns[t].leader != i
    requires k <= |h.reigns[t].log| && q <= h.reigns[t].readSeq
    requires forall s :: (s, i) in h.votes ==> s <= t
    ensures Grow(h, Acked(h, t, i, k, q), i, t)
    ensures HistOk(Acked(h, t, i, k, q))
  {
    var g := Acked(h, t, i, k, q);
    assert Grow(h, g, i, t);
    if (t, i) in h.acks { assert AckOk(h, t, i); }
    if (t, i) in g.acks { assert AckOk(g, t, i); }
    if (t, i) in h.votes { VoteGrows(h, g, i, t, t, i); }
    HistGrows(h, g, i, t);
  }

  /** Acknowledging what the log holds. */
  lemma AckedKeeps(h: History, t: Term, i: NodeID, k: Index, q: nat, es: seq<Entry>)
    requires HistOk(h) && t in h.reigns && k <= |h.reigns[t].log|
    requires KeepsAll(h, i, es, t + 1) && Prefix(LogOf(h, t, k), es)
    requires Grow(h, Acked(h, t, i, k, q), i, t)
    ensures KeepsAll(Acked(h, t, i, k, q), i, es, t + 1)
  {
    var g := Acked(h, t, i, k, q);
    var bound := t + 1;
    forall s, j | (s, i) in g.acks && s < bound && AckOk(g, s, i) && 1 <= j <= g.acks[(s, i)]
      ensures Keeps(g, es, s, j, bound)
    {
      if (s, i) in h.acks && j <= h.acks[(s, i)] {
        assert AckOk(h, s, i);
        KeepsGrows(h, g, i, t, es, s, j, t + 1);
      } else {
        assert LogOf(g, t, j) == LogOf(h, t, k)[..j];
        assert es[..j] == es[..k][..j];
      }
    }
  }

  lemma AckedSame(h: History, t: Term, i: NodeID, k: Index, q: nat)
    requires t in h.reigns
    ensures var g := Acked(h, t, i, k, q);
            g.votes == h.votes && g.ids == h.ids && g.reigns == h.reigns && g.follows == h.follows &&
                g.excused == h.excused
  {
  }

  lemma FollowerRoleSame(h: History, g: History, n: Node)
    requires RoleState(h, n) && n.role.Follower? && g.reigns == h.reigns && g.follows == h.follows
    requires g.excused == h.excused
    ensures RoleState(g, n)
  {
  }

  lemma AckedNode(h: History, i: NodeID, n: Node, k: Index, q: nat) returns (g: History)
    requires Good(h, i, n) && n.role.Follower?
    requires var t := n.log.term;
             t in h.reigns && h.reigns[t].leader != i && k <= |h.reigns[t].log| && q <= h.reigns[t].readSeq &&
             Prefix(LogOf(h, t, k), n.log.entries)
    ensures g == Acked(h, n.log.term, i, k, q)
    ensures Grow(h, g, i, n.log.term) && Good(g, i, n)
  {
    var t := n.log.term;
    g := Acked(h, t, i, k, q);
    hide *;
    AckedSame(h, t, i, k, q);
    NodeFacts(h, i, n);
    FollowerRoleSame(h, g, n);
    AckedHistory(h, t, i, k, q);
    AckedKeeps(h, t, i, k, q, n.log.entries);
    SelfDurable(h, g, i, n.log, n.applied);
    GoodFrom(g, i, n);
  }

  /** The acknowledgement may be sent to the leader. */
  lemma AckedReply(h: History, t: Term, i: NodeID, k: Index, q: nat, to: NodeID)
    requires Leads(h, t, to) && i in h.ids && to in h.ids
    ensures var g := Acked(h, t, i, k, q);
            && MsgOk(g, Envelope(i, t, to, HeartbeatResponse(k, q)))
            && MsgOk(g, Envelope(i, t, to, ReadConfirmed(q)))
            && (k > 0 || to in h.excused ==> MsgOk(g, Envelope(i, t, to, AppendResponse(k, 0))))
  {
  }

  lemma FollowerReadOk(h: History, i: NodeID, n: Node, e: Envelope) returns (g: History)
    requires Good(h, i, n) && n.role.Follower? && MsgOk(h, e) && e.to == i && e.from != i
    requires e.message.ReadConfirm? && e.term == n.log.term
    ensures Outcome(h, g, i, FollowerRead(n, e))
  {
    var m := HearLeaderOk(h, i, n, e.from);
    var x := HearLeader(n, e.from).node;
    var t, q := n.log.term, e.message.seqNo;
    g := AckedNode(m, i, x, 0, q);
    AckedReply(m, t, i, 0, q, e.from);
    Reply(h, m, g, i, x, Envelope(i, t, e.from, ReadConfirmed(q)));
  }

  /** How far the follower's log matches the heartbeat. */
  function HeartbeatMatch(es: seq<Entry>, e: Envelope): Index
    requires e.message.Heartbeat?
  {
    if Has(es, e.message.hbLastIndex, e.term) then e.message.hbLastIndex else 0
  }

  /** The outcome of a heartbeat from the leader we hear, without its panics. */
  lemma HeartbeatCases(n: Node, e: Envelope)
    requires Valid(n) && n.role.Follower? && e.message.Heartbeat? && HearLeader(n, e.from).panic.None?
    requires e.message.hbCommitIndex <= e.message.hbLastIndex
    ensures var m, x, k := e.message, HearLeader(n, e.from).node, HeartbeatMatch(n.log.entries, e);
            var out := {Mail(n, e.from, HeartbeatResponse(k, m.hbReadSeq))};
            if k != 0 && m.hbCommitIndex > n.log.commitIndex then
              var log := Commit(n.log, m.hbCommitIndex);
              FollowerHeartbeat(n, e) == Effect(x.(log := log, applied := ApplyCommitted(log, n.applied)), out, None)
            else
              FollowerHeartbeat(n, e) == Effect(x, out, None)
  {
  }

  lemma FollowerHeartbeatOk(h: History, i: NodeID, n: Node, e: Envelope) returns (g: History)
    requires Good(h, i, n) && n.role.Follower? && MsgOk(h, e) && e.to == i && e.from != i
    requires e.message.Heartbeat? && e.term == n.log.term
    ensures Outcome(h, g, i, FollowerHeartbeat(n, e))
  {
    var m, t := e.message, n.log.term;
    assert Leads(h, t, e.from) && Valid(n) && n.id == i && m.hbCommitIndex <= m.hbLastIndex;
    var f := HearLeaderOk(h, i, n, e.from);
    HeartbeatCases(n, e);
    var x, k := HearLeader(n, e.from).node, HeartbeatMatch(n.log.entries, e);
    assert k != 0 && m.hbCommitIndex > n.log.commitIndex ==> m.hbCommitIndex <= |n.log.entries|;
    hide *;
    OutcomeGrow(h, f, i, HearLeader(n, e.from));
    MsgGrows(h, f, i, t, e);
    g := HeartbeatAck(f, i, x, e);
    var answer := Mail(n, e.from, HeartbeatResponse(k, m.hbReadSeq));
    if k != 0 && m.hbCommitIndex > n.log.commitIndex {
      HeartbeatCommit(f, g, i, x, e);
      var log := Commit(n.log, m.hbCommitIndex);
      Reply(h, f, g, i, x.(log := log, applied := ApplyCommitted(log, n.applied)), answer);
    } else {
      Reply(h, f, g, i, x, answer);
    }
  }

  /** The follower acknowledges as much of the leader's log as matches the heartbeat. */
  lemma HeartbeatAck(h: History, i: NodeID, n: Node, e: Envelope) returns (g: History)
    requires Good(h, i, n) && n.role.Follower? && MsgOk(h, e)
    requires e.message.Heartbeat? && e.term == n.log.term && e.from != i
    ensures Grow(h, g, i, n.log.term) && Good(g, i, n)
    ensures MsgOk(g, Mail(n, e.from, HeartbeatResponse(HeartbeatMatch(n.log.entries, e), e.message.hbReadSeq)))
  {
    var t, m, k := n.log.term, e.message, HeartbeatMatch(n.log.entries, e);
    HeartbeatPrefix(h, n.log.entries, e);
    g := AckedNode(h, i, n, k, m.hbReadSeq);
    AckedReply(h, t, i, k, m.hbReadSeq, e.from);
  }

  lemma HeartbeatPrefix(h: History, es: seq<Entry>, e: Envelope)
    requires Coherent(h, es) && MsgOk(h, e) && e.message.Heartbeat?
    ensures Prefix(LogOf(h, e.term, HeartbeatMatch(es, e)), es)
  {
    var k := HeartbeatMatch(es, e);
    if k > 0 { assert CoherentAt(h, es, k - 1); }
  }

  lemma HeartbeatCommit(h: History, g: History, i: NodeID, n: Node, e: Envelope)
    requires Good(g, i, n) && n.role.Follower? && MsgOk(h, e) && Grow(h, g, i, n.log.term)
    requires e.message.Heartbeat? && e.term == n.log.term
    requires HeartbeatMatch(n.log.entries, e) != 0 && n.log.commitIndex < e.message.hbCommitIndex <= |n.log.entries|
    ensures var log := Commit(n.log, e.message.hbCommitIndex);
            log.term == n.log.term && Good(g, i, n.(log := log, applied := ApplyCommitted(log, n.applied)))
  {
    MsgGrows(h, g, i, n.log.term, e);
    HeartbeatPrefix(g, n.log.entries, e);
    FollowerCommitOk(g, i, n, e.message.hbCommitIndex, HeartbeatMatch(n.log.entries, e));
  }

  /** A follower that holds the leader's log up to k may commit what the leader did. */
  lemma FollowerCommitOk(h: History, i: NodeID, n: Node, commit: Index, k: Index)
    requires Good(h, i, n) && n.role.Follower? && n.log.term in h.reigns
    requires n.log.commitIndex < commit <= k <= |h.reigns[n.log.term].log|
    requires Prefix(LogOf(h, n.log.term, k), n.log.entries)
    requires Safe(h, LogOf(h, n.log.term, commit), n.log.term)
    ensures var log := Commit(n.log, commit);
            Good(h, i, n.(log := log, applied := ApplyCommitted(log, n.applied)))
  {
    assert n.log.entries[..commit] == n.log.entries[..k][..commit] == LogOf(h, n.log.term, commit);
    DurableCommit(h, i, n.log, n.applied, commit);
  }

  // ---------------------------------------------------------------- appends

  /** The follower's log agrees with the leader's up to the base of the append. */
  lemma BaseAgrees(h: History, es: seq<Entry>, t: Term, base: Index)
    requires ReignsOk(h) && Coherent(h, es) && t in h.reigns && base <= |h.reigns[t].log|
    requires base == 0 || Has(es, base, TermAt(h.reigns[t].log, base))
    ensures Prefix(LogOf(h, t, base), es)
  {
    if base > 0 {
      assert ReignOk(h, t);
      LogsMatch(h, es, h.reigns[t].log, base - 1);
    }
  }

  /** Equal terms at an index mean equal logs up to it. */
  ghost predicate MatchAt(a: seq<Entry>, b: seq<Entry>, k: nat)
    requires k < |a| && k < |b|
  {
    a[k].term == b[k].term ==> a[..k + 1] == b[..k + 1]
  }

  ghost predicate Matching(a: seq<Entry>, b: seq<Entry>) {
    forall k {:trigger MatchAt(a, b, k)} :: 0 <= k < |a| && k < |b| ==> MatchAt(a, b, k)
  }

  lemma CoherentMatching(h: History, a: seq<Entry>, b: seq<Entry>)
    requires Coherent(h, a) && Coherent(h, b)
    ensures Matching(a, b)
  {
    forall k | 0 <= k < |a| && k < |b| ensures MatchAt(a, b, k) {
      if a[k].term == b[k].term { LogsMatch(h, a, b, k); }
    }
  }

  /** A batch of the leader's log that follows a base the two logs share. */
  ghost predicate Batch(es: seq<Entry>, log: seq<Entry>, base: Index, batch: seq<Entry>) {
    && Sorted(log)
    && Matching(es, log)
    && base + |batch| <= |log|
    && batch == log[base..base + |batch|]
    && Prefix(log[..base], es)
  }

  /** The entries of the batch that the follower already has, it has exactly. */
  lemma OverlapAgrees(es: seq<Entry>, log: seq<Entry>, base: Index, batch: seq<Entry>, n: nat)
    requires Batch(es, log, base, batch) && IsOverlap(es, batch, n)
    ensures Prefix(log[..base + n], es)
    ensures n < |batch| ==> !Has(es, base + n + 1, log[base + n].term)
  {
    var c := base + n;
    if n > 0 {
      assert batch[n - 1] == log[c - 1];
      assert Has(es, batch[n - 1].index, batch[n - 1].term);
      assert MatchAt(es, log, c - 1);
    }
    if n < |batch| { assert batch[n] == log[c]; }
  }

  /** An append from the term's leader never makes `splice` panic: its entries are well
      formed, touch the log, agree with it where terms agree, and leave the committed
      prefix alone. */
  lemma SpliceSucceeds(l: LogState, log: seq<Entry>, base: Index, batch: seq<Entry>)
    requires WellFormed(l) && Batch(l.entries, log, base, batch) && LastTerm(log) <= l.term
    requires Prefix(l.entries[..l.commitIndex], log)
    ensures SpliceFault(l, batch).None?
  {
    if batch != [] {
      BatchShape(log, base, batch);
      BatchTouches(l.entries, log, base, batch);
      OverlapClean(l, log, base, batch, Overlap(l.entries, batch));
    }
  }

  lemma BatchTouches(es: seq<Entry>, log: seq<Entry>, base: Index, batch: seq<Entry>)
    requires Batch(es, log, base, batch) && batch != []
    ensures base <= |es| && TermAt(es, base) <= batch[0].term
  {
    if base > 0 {
      assert es[base - 1] == log[..base][base - 1];
      assert Ordered(log, base - 1, base);
    }
  }

  /** Where terms agree commands agree, and the first difference is above the commit index. */
  lemma OverlapClean(l: LogState, log: seq<Entry>, base: Index, batch: seq<Entry>, n: nat)
    requires Batch(l.entries, log, base, batch) && IsOverlap(l.entries, batch, n)
    requires l.commitIndex <= |l.entries| && Prefix(l.entries[..l.commitIndex], log)
    requires forall k :: 0 <= k < |batch| ==> batch[k].index == base + 1 + k
    ensures forall k :: 0 <= k < n ==> batch[k].index <= |l.entries| && l.entries[batch[k].index - 1] == batch[k]
    ensures n < |batch| ==> l.commitIndex < batch[n].index
  {
    OverlapAgrees(l.entries, log, base, batch, n);
    forall k | 0 <= k < n ensures batch[k].index <= |l.entries| && l.entries[batch[k].index - 1] == batch[k] {
      assert l.entries[base + k] == log[..base + n][base + k];
    }
    if n < |batch| { SharedBelow(l.entries[..l.commitIndex], l.entries, log, base + n); }
  }

  lemma BatchShape(log: seq<Entry>, base: Index, batch: seq<Entry>)
    requires Sorted(log) && batch != [] && base + |batch| <= |log| && batch == log[base..base + |batch|]
    ensures Contiguous(batch) && TermsNondecreasing(batch)
    ensures batch[0].index == base + 1 && batch[0].term > 0
    ensures batch[|batch| - 1].term <= LastTerm(log)
    ensures batch[|batch| - 1].index == base + |batch|
  {
    forall j, k | 0 <= j <= k < |batch| ensures Ordered(batch, j, k) { assert Ordered(log, base + j, base + k); }
    assert Ordered(log, base + |batch| - 1, |log| - 1);
  }

  /** Either the whole append was there already, or the log becomes the leader's up to the
      end of the append, cut at the first entry c where the two differ. */
  lemma SpliceResult(l: LogState, log: seq<Entry>, base: Index, batch: seq<Entry>) returns (c: nat)
    requires Batch(l.entries, log, base, batch) && SpliceFault(l, batch).None?
    ensures var m, r := base + |batch|, Splice(l, batch).entries;
            || (r == l.entries && Prefix(log[..m], r))
            || (r == log[..m] && c < m && Prefix(log[..c], l.entries) && (c < |l.entries| ==> l.entries[c] != log[c]))
  {
    var m := base + |batch|;
    var n := Overlap(l.entries, batch);
    OverlapAgrees(l.entries, log, base, batch, n);
    c := base + n;
    if c < m {
      assert batch[n] == log[c];
      assert Splice(l, batch).entries == l.entries[..c] + batch[n..];
      assert batch == log[base..m];
      assert l.entries[..c] == log[..c];
      hide *;
      Rejoined(l.entries, log, base, batch, n);
    }
  }

  lemma Rejoined(es: seq<Entry>, log: seq<Entry>, base: nat, batch: seq<Entry>, n: nat)
    requires n <= |batch| && base + |batch| <= |log| && batch == log[base..base + |batch|]
    requires base + n <= |es| && es[..base + n] == log[..base + n]
    ensures es[..base + n] + batch[n..] == log[..base + |batch|]
  {
    assert batch[n..] == log[base + n..base + |batch|];
  }

  lemma SharedBelow<T>(p: seq<T>, a: seq<T>, b: seq<T>, c: nat)
    requires Prefix(p, a) && Prefix(p, b) && c < |b| && (c < |a| ==> a[c] != b[c])
    ensures |p| <= c
  {
    assert forall k :: 0 <= k < |p| ==> a[k] == p[k] == b[k];
  }

  /** The spliced log keeps every acknowledged prefix, unless this leader overwrites it. */
  lemma SpliceKeeps(h: History, i: NodeID, t: Term, es: seq<Entry>, r: seq<Entry>, m: nat, c: nat)
    requires HistOk(h) && t in h.reigns && m <= |h.reigns[t].log| && KeepsAll(h, i, es, t + 1)
    requires r == LogOf(h, t, m) && c < m && Prefix(LogOf(h, t, c), es)
    requires c < |es| ==> es[c] != h.reigns[t].log[c]
    ensures KeepsAll(h, i, r, t + 1)
  {
    var bound := t + 1;
    forall s, k | (s, i) in h.acks && s < bound && AckOk(h, s, i) && 1 <= k <= h.acks[(s, i)]
      ensures Keeps(h, r, s, k, bound)
    {
      assert Keeps(h, es, s, k, bound);
      var p := LogOf(h, s, k);
      if Prefix(p, es) {
        if Prefix(p, h.reigns[t].log) {
          SharedBelow(p, es, h.reigns[t].log, c);
          PrefixesNest(p, r, h.reigns[t].log);
        } else {
          assert Overwrites(h, t, s, k);
          assert s < t by { if s == t { assert Prefix(p, h.reigns[t].log); } }
        }
      }
    }
  }

  /** The committed prefix is in the current leader's log. */
  lemma CommittedInLeader(h: History, i: NodeID, n: Node)
    requires Good(h, i, n) && n.log.term in h.reigns
    ensures Prefix(n.log.entries[..n.log.commitIndex], h.reigns[n.log.term].log)
  {
    SafeInLeader(h, n.log.entries[..n.log.commitIndex], n.log.term, n.log.term);
  }

  lemma AppendBatch(h: History, i: NodeID, n: Node, base: Index, batch: seq<Entry>)
    requires Good(h, i, n) && n.log.term in h.reigns
    requires AppendOk(h, n.log.term, base, TermAt(h.reigns[n.log.term].log, base), batch)
    requires base == 0 || Has(n.log.entries, base, TermAt(h.reigns[n.log.term].log, base))
    ensures Batch(n.log.entries, h.reigns[n.log.term].log, base, batch)
    ensures SpliceFault(n.log, batch).None?
  {
    var log := h.reigns[n.log.term].log;
    BaseAgrees(h, n.log.entries, n.log.term, base);
    assert ReignOk(h, n.log.term);
    CoherentMatching(h, n.log.entries, log);
    CommittedInLeader(h, i, n);
    SpliceSucceeds(n.log, log, base, batch);
  }

  /** What the spliced log is, and that it keeps what the node acknowledged. */
  lemma SpliceLog(h: History, i: NodeID, l: LogState, base: Index, batch: seq<Entry>)
    requires HistOk(h) && Coherent(h, l.entries) && KeepsAll(h, i, l.entries, l.term + 1) && l.term in h.reigns
    requires Batch(l.entries, h.reigns[l.term].log, base, batch)
    requires SpliceFault(l, batch).None?
    ensures var r := Splice(l, batch).entries;
            Coherent(h, r) && KeepsAll(h, i, r, l.term + 1) && Prefix(LogOf(h, l.term, base + |batch|), r)
  {
    var t, r := l.term, Splice(l, batch).entries;
    var c := SpliceResult(l, h.reigns[t].log, base, batch);
    if r != l.entries {
      assert ReignOk(h, t);
      CoherentPrefix(h, r, h.reigns[t].log);
      SpliceKeeps(h, i, t, l.entries, r, base + |batch|, c);
    }
  }

  /** An accepted append: the log agrees with the leader's up to the end of the batch. */
  lemma SpliceOk(h: History, i: NodeID, n: Node, base: Index, batch: seq<Entry>)
    requires Good(h, i, n) && n.role.Follower? && n.log.term in h.reigns
    requires Batch(n.log.entries, h.reigns[n.log.term].log, base, batch)
    requires SpliceFault(n.log, batch).None?
    ensures Good(h, i, n.(log := Splice(n.log, batch)))
    ensures Prefix(LogOf(h, n.log.term, base + |batch|), Splice(n.log, batch).entries)
  {
    SpliceLog(h, i, n.log, base, batch);
    SpliceSame(n.log, batch);
    assert Durable(h, i, Splice(n.log, batch), n.applied);
  }

  /** Splicing touches the entries above the commit index only. */
  lemma SpliceSame(l: LogState, batch: seq<Entry>)
    requires WellFormed(l) && SpliceFault(l, batch).None?
    ensures var r := Splice(l, batch);
            && r.term == l.term && r.vote == l.vote && r.commitIndex == l.commitIndex && WellFormed(r)
            && r.entries[..r.commitIndex] == l.entries[..l.commitIndex]
  {
  }

  lemma AppendHeard(h: History, i: NodeID, n: Node, e: Envelope) returns (g: History)
    requires Good(h, i, n) && n.role.Follower? && MsgOk(h, e) && Leads(h, n.log.term, e.from)
    requires e.message.Append? && e.term == n.log.term && e.from != i && e.to == i
    requires e.message.baseIndex == 0 || Has(n.log.entries, e.message.baseIndex, e.message.baseTerm)
    ensures SpliceFault(n.log, e.message.entries).None?
    ensures Grow(h, g, i, n.log.term) && Good(g, i, n.(log := Splice(n.log, e.message.entries)))
    ensures Splice(n.log, e.message.entries).term == n.log.term
    ensures MsgOk(g, Mail(n, e.from, AppendResponse(e.message.baseIndex + |e.message.entries|, 0)))
  {
    var t, m := n.log.term, e.message;
    var k := m.baseIndex + |m.entries|;
    hide *;
    AppendFacts(h, i, n, e);
    MailIs(n, e.from, AppendResponse(k, 0));
    var x := AppendSpliced(h, i, n, e);
    g := AckedNode(h, i, x, k, 0);
    AckedReply(h, t, i, k, 0, e.from);
  }

  lemma AppendSpliced(h: History, i: NodeID, n: Node, e: Envelope) returns (x: Node)
    requires Good(h, i, n) && n.role.Follower? && MsgOk(h, e) && Leads(h, n.log.term, e.from)
    requires e.message.Append? && e.term == n.log.term && e.from != i && e.to == i
    requires e.message.baseIndex == 0 || Has(n.log.entries, e.message.baseIndex, e.message.baseTerm)
    ensures SpliceFault(n.log, e.message.entries).None? && x == n.(log := Splice(n.log, e.message.entries))
    ensures x.log.term == n.log.term && Good(h, i, x)
    ensures n.log.term in h.reigns && e.message.baseIndex + |e.message.entries| <= |h.reigns[n.log.term].log|
    ensures Prefix(LogOf(h, n.log.term, e.message.baseIndex + |e.message.entries|), x.log.entries)
  {
    var m := e.message;
    hide *;
    AppendFacts(h, i, n, e);
    AppendBatch(h, i, n, m.baseIndex, m.entries);
    SpliceOk(h, i, n, m.baseIndex, m.entries);
    SpliceSame(n.log, m.entries);
    x := n.(log := Splice(n.log, m.entries));
  }

  lemma MailIs(n: Node, to: NodeID, m: Message)
    ensures Mail(n, to, m) == Envelope(n.id, n.log.term, to, m)
  {
  }

  /** What an append from the leader of the node's term says. */
  lemma AppendFacts(h: History, i: NodeID, n: Node, e: Envelope)
    requires Good(h, i, n) && n.role.Follower? && MsgOk(h, e) && Leads(h, n.log.term, e.from)
    requires e.message.Append? && e.term == n.log.term && e.from != i && e.to == i
    ensures var t, m := n.log.term, e.message;
            && n.id == i && i in h.ids && e.from in h.ids && WellFormed(n.log)
            && t in h.reigns && h.reigns[t].leader == e.from
            && AppendOk(h, t, m.baseIndex, TermAt(h.reigns[t].log, m.baseIndex), m.entries)
            && (m.baseIndex > 0 ==> m.baseTerm == TermAt(h.reigns[t].log, m.baseIndex))
            && m.baseIndex + |m.entries| <= |h.reigns[t].log|
            && (m.baseIndex + |m.entries| > 0 || e.from in h.excused)
  {
  }

  /** The outcome of an append from the leader we hear, without its panics. */
  lemma AppendCases(n: Node, e: Envelope)
    requires Valid(n) && n.role.Follower? && e.message.Append? && HearLeader(n, e.from).panic.None?
    requires e.message.entries != [] ==>
               && e.message.entries[0].index == e.message.baseIndex + 1
               && e.message.entries[|e.message.entries| - 1].index == e.message.baseIndex + |e.message.entries|
    ensures var m, x := e.message, HearLeader(n, e.from).node;
            if m.baseIndex == 0 || Has(n.log.entries, m.baseIndex, m.baseTerm) then
              SpliceFault(n.log, m.entries).None? ==>
                FollowerAppend(n, e) ==
                  Effect(x.(log := Splice(n.log, m.entries)),
                      {Mail(n, e.from, AppendResponse(m.baseIndex + |m.entries|, 0))}, None)
            else
              FollowerAppend(n, e) == Effect(x,
                  {Mail(n, e.from, AppendResponse(0, Min(m.baseIndex, |n.log.entries| + 1)))}, None)
  {
  }

  lemma RejectOk(h: History, i: NodeID, n: Node, e: Envelope)
    requires MsgOk(h, e) && e.message.Append? && e.to == i && n.id == i && e.term == n.log.term
    requires e.message.baseIndex > 0
    ensures MsgOk(h, Mail(n, e.from, AppendResponse(0, Min(e.message.baseIndex, |n.log.entries| + 1))))
  {
  }

  lemma FollowerAppendOk(h: History, i: NodeID, n: Node, e: Envelope) returns (g: History)
    requires Good(h, i, n) && n.role.Follower? && MsgOk(h, e) && e.to == i && e.from != i
    requires e.message.Append? && e.term == n.log.term
    ensures Outcome(h, g, i, FollowerAppend(n, e))
  {
    var m, t := e.message, n.log.term;
    assert Leads(h, t, e.from) && Valid(n) && n.id == i;
    AppendIndexes(h, e);
    var f := HearLeaderOk(h, i, n, e.from);
    var x := HearLeader(n, e.from).node;
    assert Leads(f, t, e.from);
    AppendCases(n, e);
    hide *;
    OutcomeGrow(h, f, i, HearLeader(n, e.from));
    MsgGrows(h, f, i, t, e);
    if m.baseIndex == 0 || Has(n.log.entries, m.baseIndex, m.baseTerm) {
      g := AppendHeard(f, i, x, e);
      Reply(h, f, g, i, x.(log := Splice(n.log, m.entries)),
          Mail(n, e.from, AppendResponse(m.baseIndex + |m.entries|, 0)));
    } else {
      g := f;
      GrowRefl(f, i, t);
      RejectOk(f, i, n, e);
      Reply(h, f, g, i, x, Mail(n, e.from, AppendResponse(0, Min(m.baseIndex, |n.log.entries| + 1))));
    }
  }

  lemma AppendIndexes(h: History, e: Envelope)
    requires HistOk(h) && MsgOk(h, e) && e.message.Append?
    ensures e.message.entries != [] ==>
              && e.message.entries[0].index == e.message.baseIndex + 1
              && e.message.entries[|e.message.entries| - 1].index == e.message.baseIndex + |e.message.entries|
  {
    assert ReignOk(h, e.term);
    if e.message.entries != [] { BatchShape(h.reigns[e.term].log, e.message.baseIndex, e.message.entries); }
  }
}
