/** What has ever happened in a cluster, as far as safety needs it: who led each term and
    with which log, who voted for whom with which log, and who acknowledged how much of a
    term's log. Histories are not part of the model; the proofs choose them. */
module RaftHistory {
  import opened Basics
  import opened RaftMessage
  import opened RaftLog
  import opened RaftNode

  /** A read the leader took on, and how much it had applied by then. */
  datatype Ask = Ask(id: RequestID, command: Command, applied: nat)

  /** A term that had a leader: the longest log it ever held, the votes that elected it, how
      much it applied, and the requests it took on, by index and by read sequence number. */
  datatype Reign = Reign(
    leader: NodeID,
    log: seq<Entry>,
    electors: set<NodeID>,
    applied: nat,
    readSeq: nat,
    writes: map<Index, RequestID>,
    asks: map<nat, Ask>)

  /** A vote, with the voter's log at the time. */
  datatype Vote = Vote(candidate: NodeID, log: seq<Entry>)

  datatype History = History(
    ids: set<NodeID>,
    reigns: map<Term, Reign>,
    votes: map<(Term, NodeID), Vote>,
    acks: map<(Term, NodeID), Index>,
    follows: set<(Term, NodeID)>,
    readAcks: map<(Term, NodeID), nat>,
    submitted: set<(RequestID, Request)>,
    handed: set<(Term, RequestID)>,
    excused: set<NodeID>)

  // ---------------------------------------------------------------- invariant

  /** The log up to entry k is what the leader of that entry's term had. */
  ghost predicate CoherentAt(h: History, es: seq<Entry>, k: nat)
    requires k < |es|
  {
    && es[k].term in h.reigns
    && k < |h.reigns[es[k].term].log|
    && es[..k + 1] == h.reigns[es[k].term].log[..k + 1]
  }

  ghost predicate Coherent(h: History, es: seq<Entry>) {
    forall k :: 0 <= k < |es| ==> CoherentAt(h, es, k)
  }

  /** The first k entries of the log of term s. */
  ghost function LogOf(h: History, s: Term, k: nat): seq<Entry>
    requires s in h.reigns && k <= |h.reigns[s].log|
  {
    h.reigns[s].log[..k]
  }

  /** Term u's leader does not hold the first k entries of term s. */
  ghost predicate Overwrites(h: History, u: Term, s: Term, k: nat)
    requires s in h.reigns && k <= |h.reigns[s].log|
  {
    u in h.reigns && !Prefix(LogOf(h, s, k), h.reigns[u].log)
  }

  /** A log that once acknowledged k entries of term s still holds them, or a leader of a
      term after s and below the bound did not have them. */
  ghost predicate Keeps(h: History, es: seq<Entry>, s: Term, k: nat, bound: Term)
    requires s in h.reigns && k <= |h.reigns[s].log|
  {
    Prefix(LogOf(h, s, k), es) || exists u :: s < u < bound && Overwrites(h, u, s, k)
  }

  ghost predicate AckOk(h: History, s: Term, v: NodeID)
    requires (s, v) in h.acks
  {
    v in h.ids && s in h.reigns && 1 <= h.acks[(s, v)] <= |h.reigns[s].log|
  }

  ghost predicate AcksOk(h: History) {
    forall s, v {:trigger AckOk(h, s, v)} :: (s, v) in h.acks ==> AckOk(h, s, v)
  }

  /** Everything `v` acknowledged before the bound is kept in `es`. */
  ghost predicate KeepsAll(h: History, v: NodeID, es: seq<Entry>, bound: Term) {
    forall s, k {:trigger Keeps(h, es, s, k, bound)} ::
        (s, v) in h.acks && s < bound && AckOk(h, s, v) && 1 <= k <= h.acks[(s, v)] ==> Keeps(h, es, s, k, bound)
  }

  ghost predicate VoteOk(h: History, t: Term, v: NodeID)
    requires (t, v) in h.votes
  {
    var vote := h.votes[(t, v)];
    && t > 0
    && v in h.ids
    && Sorted(vote.log)
    && Coherent(h, vote.log)
    && (t, vote.candidate) in h.votes
    && var own := h.votes[(t, vote.candidate)];
    && own.candidate == vote.candidate
    && LastTerm(own.log) < t
    && UpToDate(|own.log|, LastTerm(own.log), vote.log)
    && ((t !in h.reigns || v in h.reigns[t].electors) ==> KeepsAll(h, v, vote.log, t))
  }

  ghost predicate VotesOk(h: History) {
    forall t, v {:trigger VoteOk(h, t, v)} :: (t, v) in h.votes ==> VoteOk(h, t, v)
  }

  ghost predicate ReignOk(h: History, t: Term)
    requires t in h.reigns
  {
    var r := h.reigns[t];
    && t > 0
    && r.log != []
    && Sorted(r.log)
    && LastTerm(r.log) == t
    && Coherent(h, r.log)
    && (t, r.leader) in h.votes
    && h.votes[(t, r.leader)].candidate == r.leader
    && Founded(r.log, h.votes[(t, r.leader)].log, t)
    && Majority(r.electors, h.ids)
    && (forall v :: v in r.electors ==> (t, v) in h.votes && h.votes[(t, v)].candidate == r.leader)
    && (t, r.leader) in h.acks && h.acks[(t, r.leader)] == |r.log|
    && RequestsOk(h, t)
  }

  /** The requests a leader took on were submitted, and its writes are in its log. */
  ghost predicate RequestsOk(h: History, t: Term)
    requires t in h.reigns
  {
    && (forall k :: k in h.reigns[t].writes ==> WrittenAt(h, t, k))
    && (forall q :: q in h.reigns[t].asks ==> AskedAt(h, t, q))
  }

  /** The request was submitted, and handed to the leader of term t. */
  ghost predicate Taken(h: History, t: Term, id: RequestID, request: Request) {
    (id, request) in h.submitted && (t, id) in h.handed
  }

  ghost predicate WrittenAt(h: History, t: Term, k: Index)
    requires t in h.reigns && k in h.reigns[t].writes
  {
    var log := h.reigns[t].log;
    && 1 <= k <= |log|
    && log[k - 1].term == t
    && log[k - 1].command.Some?
    && Taken(h, t, h.reigns[t].writes[k], WriteRequest(log[k - 1].command.value))
  }

  ghost predicate AskedAt(h: History, t: Term, q: nat)
    requires t in h.reigns && q in h.reigns[t].asks
  {
    var ask := h.reigns[t].asks[q];
    1 <= q <= h.reigns[t].readSeq && Taken(h, t, ask.id, ReadRequest(ask.command))
  }

  /** A leader's log is its candidate log followed by entries of its term. */
  ghost predicate Founded(log: seq<Entry>, base: seq<Entry>, t: Term) {
    && |base| < |log|
    && base == log[..|base|]
    && log[|base|].term == t
    && LastTerm(base) < t
  }

  ghost predicate ReignsOk(h: History) {
    forall t {:trigger ReignOk(h, t)} :: t in h.reigns ==> ReignOk(h, t)
  }

  ghost predicate ReadAcksOk(h: History) {
    forall t, v :: (t, v) in h.readAcks ==> t in h.reigns && h.readAcks[(t, v)] <= h.reigns[t].readSeq
  }

  ghost predicate HistOk(h: History) {
    AcksOk(h) && VotesOk(h) && ReignsOk(h) && ReadAcksOk(h)
  }

  // ---------------------------------------------------------------- commitment

  /** A majority acknowledged k entries of term s, the last of them of term s itself. */
  ghost predicate ChosenBy(h: History, s: Term, k: nat, q: set<NodeID>) {
    && s in h.reigns
    && 1 <= k <= |h.reigns[s].log|
    && h.reigns[s].log[k - 1].term == s
    && Majority(q, h.ids)
    && forall v :: v in q ==> (s, v) in h.acks && h.acks[(s, v)] >= k
  }

  ghost predicate Chosen(h: History, s: Term, k: nat) {
    exists q :: ChosenBy(h, s, k, q)
  }

  ghost predicate SafeBy(h: History, es: seq<Entry>, s: Term, k: nat) {
    Chosen(h, s, k) && |es| <= k && es == LogOf(h, s, |es|)
  }

  /** The entries were chosen in a term up to the bound. */
  ghost predicate Safe(h: History, es: seq<Entry>, bound: Term) {
    es == [] || exists s: Term, k: nat :: s <= bound && SafeBy(h, es, s, k)
  }

  // ---------------------------------------------------------------- sorted logs

  lemma TermsBounded(es: seq<Entry>, k: nat)
    requires Sorted(es) && k < |es|
    ensures es[k].term <= LastTerm(es)
  {
    assert Ordered(es, k, |es| - 1);
  }

  /** A log whose last term is t is a prefix of the log of term t. */
  lemma CoherentTail(h: History, es: seq<Entry>)
    requires Coherent(h, es) && es != []
    ensures LastTerm(es) in h.reigns && Prefix(es, h.reigns[LastTerm(es)].log)
  {
    assert CoherentAt(h, es, |es| - 1);
    assert es[..|es|] == es;
  }

  /** Log matching: equal terms at an index mean equal logs up to it. */
  lemma LogsMatch(h: History, a: seq<Entry>, b: seq<Entry>, k: nat)
    requires Coherent(h, a) && Coherent(h, b)
    requires k < |a| && k < |b| && a[k].term == b[k].term
    ensures a[..k + 1] == b[..k + 1]
  {
    assert CoherentAt(h, a, k) && CoherentAt(h, b, k);
  }

  lemma CoherentPrefix(h: History, a: seq<Entry>, es: seq<Entry>)
    requires Coherent(h, es) && Prefix(a, es)
    ensures Coherent(h, a)
  {
    forall k | 0 <= k < |a| ensures CoherentAt(h, a, k) {
      assert CoherentAt(h, es, k);
      assert a[..k + 1] == es[..k + 1];
    }
  }

  // ---------------------------------------------------------------- leader completeness

  /** Leader completeness: a chosen prefix is in the log of every later leader. */
  lemma {:induction false} LeaderCompleteness(h: History, s: Term, k: nat, t: Term)
    requires HistOk(h) && Chosen(h, s, k) && t in h.reigns && s <= t
    ensures Prefix(LogOf(h, s, k), h.reigns[t].log)
    decreases t
  {
    if s < t {
      var q :| ChosenBy(h, s, k, q);
      assert ReignOk(h, t);
      var v := MajoritiesMeet(q, h.reigns[t].electors, h.ids);
      assert VoteOk(h, t, v) && AckOk(h, s, v);
      var vote := h.votes[(t, v)].log;
      assert Keeps(h, vote, s, k, t);
      if !Prefix(LogOf(h, s, k), vote) {
        var u :| s < u < t && Overwrites(h, u, s, k);
        LeaderCompleteness(h, s, k, u);
        assert false;
      }
      CandidateHolds(h, s, k, t, v);
    }
  }

  /** The candidate elected with v's vote holds what v's log holds of a chosen prefix. */
  lemma {:induction false} CandidateHolds(h: History, s: Term, k: nat, t: Term, v: NodeID)
    requires HistOk(h) && Chosen(h, s, k) && t in h.reigns && s < t
    requires (t, v) in h.votes && h.votes[(t, v)].candidate == h.reigns[t].leader
    requires Prefix(LogOf(h, s, k), h.votes[(t, v)].log)
    ensures Prefix(LogOf(h, s, k), h.reigns[t].log)
    decreases t, 0
  {
    assert VoteOk(h, t, v) && ReignOk(h, t) && ReignOk(h, s);
    var vote, p := h.votes[(t, v)].log, LogOf(h, s, k);
    var base := h.votes[(t, h.reigns[t].leader)].log;
    assert VoteOk(h, t, h.reigns[t].leader);
    assert p[k - 1].term == s;
    TermsBounded(vote, k - 1);
    CoherentTail(h, base);
    CoherentTail(h, vote);
    var w := LastTerm(base);
    if w == LastTerm(vote) {
      PrefixesNest(vote, base, h.reigns[w].log);
      PrefixTransitive(p, vote, base);
    } else {
      LeaderCompleteness(h, s, k, w);
      TooShort(h, s, k, w, base);
      PrefixesNest(p, base, h.reigns[w].log);
    }
    assert Prefix(base, h.reigns[t].log);
    PrefixTransitive(p, base, h.reigns[t].log);
  }

  /** A log of a later term that shares a prefix with a chosen one is no shorter than it. */
  lemma TooShort(h: History, s: Term, k: nat, w: Term, base: seq<Entry>)
    requires HistOk(h) && s in h.reigns && k <= |h.reigns[s].log|
    requires w in h.reigns && s < w && base != [] && LastTerm(base) == w
    requires Prefix(base, h.reigns[w].log) && Prefix(LogOf(h, s, k), h.reigns[w].log)
    ensures k <= |base|
  {
    assert ReignOk(h, s);
    var j := |base| - 1;
    if j < |h.reigns[s].log| { TermsBounded(h.reigns[s].log, j); }
    assert h.reigns[w].log[j].term == w;
  }

  /** Two chosen prefixes never disagree. */
  lemma SafeComparable(h: History, a: seq<Entry>, b: seq<Entry>, bound: Term)
    requires HistOk(h) && Safe(h, a, bound) && Safe(h, b, bound) && |a| <= |b|
    ensures Prefix(a, b)
  {
    if a != [] {
      var s: Term, k: nat :| s <= bound && SafeBy(h, a, s, k);
      var s': Term, k': nat :| s' <= bound && SafeBy(h, b, s', k');
      if s <= s' {
        LeaderCompleteness(h, s, k, s');
        SafeInLog(h, a, s, k, s');
        PrefixesNest(a, b, h.reigns[s'].log);
      } else {
        LeaderCompleteness(h, s', k', s);
        SafeInLog(h, b, s', k', s);
        PrefixesNest(a, b, h.reigns[s].log);
      }
    }
  }

  lemma SafeInLog(h: History, a: seq<Entry>, s: Term, k: nat, t: Term)
    requires SafeBy(h, a, s, k) && t in h.reigns
    requires Prefix(LogOf(h, s, k), h.reigns[t].log)
    ensures Prefix(a, h.reigns[t].log)
  {
    assert Prefix(a, LogOf(h, s, k));
    PrefixTransitive(a, LogOf(h, s, k), h.reigns[t].log);
  }

  /** The leader of a term holds everything chosen up to that term. */
  lemma SafeInLeader(h: History, a: seq<Entry>, bound: Term, t: Term)
    requires HistOk(h) && Safe(h, a, bound) && t in h.reigns && bound <= t
    ensures Prefix(a, h.reigns[t].log)
  {
    if a != [] {
      var s: Term, k: nat :| s <= bound && SafeBy(h, a, s, k);
      LeaderCompleteness(h, s, k, t);
      SafeInLog(h, a, s, k, t);
    }
  }

  lemma SafePrefix(h: History, a: seq<Entry>, b: seq<Entry>, bound: Term)
    requires Safe(h, b, bound) && Prefix(a, b)
    ensures Safe(h, a, bound)
  {
    if a != [] {
      var s: Term, k: nat :| s <= bound && SafeBy(h, b, s, k);
      assert a == LogOf(h, s, |a|);
      assert SafeBy(h, a, s, k);
    }
  }
}
