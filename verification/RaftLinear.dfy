/** Linearizability of client requests. The state machine is the free one, whose state is the
    sequence of applied entries, so a result is the whole state it was computed from. Results
    agree with each other, each write result ends with the command that was asked for, and a
    request submitted after another completed sees at least its state; a write, strictly more. */
module RaftLinear {
  import opened Basics
  import opened RaftMessage
  import opened RaftLog
  import opened RaftNode
  import opened RaftHistory
  import opened RaftInvariant
  import opened RaftCluster
  import opened RaftRuns
  import opened RaftSafety

  /** A successful answer to a write or a read. */
  predicate Completes(e: Envelope) {
    e.message.ClientResponse? && (e.message.response.WriteResponse? || e.message.response.ReadResponse?)
  }

  /** The state a result was computed from; for a write, the one it led to. */
  function ResultState(e: Envelope): seq<Entry>
    requires Completes(e)
  {
    e.message.response.state
  }

  lemma ResultSound(r: Run, hs: seq<History>, k: nat, e: Envelope)
    requires ValidRun(r) && Trace(r, hs) && |hs| == |r.states| && k < |r.states|
    requires e in r.states[k].sent && Completes(e)
    ensures ResultOk(hs[k], e.term, ResultState(e)) && MsgOk(hs[k], e) && Safe(hs[k], ResultState(e), e.term)
    ensures HistOk(hs[k]) && k <= |r.events|
    ensures hs[k].submitted == Submitted(r, k) && hs[k].handed == HandedBefore(r, k)
  {
    assert TraceAt(r, hs, k);
    assert MsgOk(hs[k], e);
  }

  /** Any two results, from any nodes at any times, agree. */
  lemma ResultsAgree(r: Run, a: nat, x: Envelope, b: nat, y: Envelope)
    requires ValidRun(r) && a < |r.states| && b < |r.states|
    requires x in r.states[a].sent && Completes(x) && y in r.states[b].sent && Completes(y)
    ensures Agree(ResultState(x), ResultState(y))
  {
    var hs := TraceOf(r);
    ResultSound(r, hs, a, x);
    ResultSound(r, hs, b, y);
    assert Safe(hs[a], ResultState(x), x.term) && Safe(hs[b], ResultState(y), y.term);
    hide *;
    SafeAgree(r, hs, a, ResultState(x), x.term, b, ResultState(y), y.term);
  }

  /** A result agrees with what any node has committed or applied at any time. */
  lemma ResultsApplied(r: Run, a: nat, x: Envelope, b: nat, i: NodeID)
    requires At(r, b, i) && a < |r.states| && x in r.states[a].sent && Completes(x)
    ensures Agree(ResultState(x), Committed(NodeAt(r, b, i).log)) && Agree(ResultState(x), NodeAt(r, b, i).applied)
  {
    var hs := TraceOf(r);
    var n := NodeAt(r, b, i);
    ResultSound(r, hs, a, x);
    NodeInvariant(r, hs, b, i);
    assert Safe(hs[a], ResultState(x), x.term) && ValidRun(r) && b < |hs|;
    hide *;
    SafeAgree(r, hs, a, ResultState(x), x.term, b, Committed(n.log), n.log.term);
    SafeAgree(r, hs, a, ResultState(x), x.term, b, n.applied, n.log.term);
  }

  /** What was asked for, if this result is of that request. */
  function Asked(e: Envelope): Request
    requires Completes(e)
  {
    if e.message.response.ReadResponse? then ReadRequest(e.message.response.command)
    else var state := ResultState(e);
         if state != [] && state[|state| - 1].command.Some? then WriteRequest(state[|state| - 1].command.value)
         else StatusRequest
  }

  /** A result in the history answers a request on record there. */
  lemma ResultOnRecord(h: History, e: Envelope)
    requires HistOk(h) && MsgOk(h, e) && Completes(e)
    ensures (e.message.id, Asked(e)) in h.submitted
  {
    var t, state := e.term, ResultState(e);
    assert ResultOk(h, t, state) && ReignOk(h, t);
    if e.message.response.WriteResponse? {
      assert WrittenAt(h, t, |state|);
      assert state[|state| - 1] == h.reigns[t].log[|state| - 1];
    } else {
      var q: nat, c :| ReadResultBy(h, t, e.message.id, e.message.response.command, |state|, q, c);
      assert AskedAt(h, t, q);
    }
  }

  /** The state of a write's result ends with a command. */
  lemma WriteHasCommand(h: History, e: Envelope)
    requires HistOk(h) && MsgOk(h, e) && Completes(e) && e.message.response.WriteResponse?
    ensures ResultState(e) != [] && ResultState(e)[|ResultState(e)| - 1].command.Some?
  {
    var t, state := e.term, ResultState(e);
    assert ResultOk(h, t, state) && ReignOk(h, t);
    assert WrittenAt(h, t, |state|);
    assert state[|state| - 1] == h.reigns[t].log[|state| - 1];
  }

  /** Every result answers a request that a client submitted before: a read result carries
      the read's command, and a write result's state ends with the write's command. */
  lemma ResultsWereAsked(r: Run, k: nat, e: Envelope) returns (j: nat)
    requires ValidRun(r) && k < |r.states| && e in r.states[k].sent && Completes(e)
    ensures j < k && r.events[j].Submit? && r.events[j].request == e.message.id && r.events[j].body == Asked(e)
  {
    var hs := TraceOf(r);
    ResultSound(r, hs, k, e);
    hide *;
    ResultOnRecord(hs[k], e);
    j := SubmittedWhen(r, k, e.message.id, Asked(e));
  }

  lemma SubmittedWhen(r: Run, k: nat, id: RequestID, body: Request) returns (j: nat)
    requires k <= |r.events| && (id, body) in Submitted(r, k)
    ensures j < k && r.events[j].Submit? && r.events[j].request == id && r.events[j].body == body
  {
    j :| 0 <= j < k && r.events[j].Submit? && (id, body) == (r.events[j].request, r.events[j].body);
  }

  // ---------------------------------------------------------------- real-time order

  /** The request is submitted at step m, and its id is used only once. */
  ghost predicate SubmittedOnceAt(r: Run, m: nat, id: RequestID) {
    && m < |r.events|
    && r.events[m].Submit? && r.events[m].request == id
    && forall j :: 0 <= j < |r.events| && j != m && r.events[j].Submit? ==> r.events[j].request != id
  }

  /** Who elected the leader of a term has reached that term. */
  lemma ElectorsMovedOn(c: Cluster, h: History, s: Term, v: NodeID)
    requires Inv(c, h) && s in h.reigns && v in h.reigns[s].electors
    ensures v in c.nodes && s <= TermOf(c, v)
  {
    assert ReignOk(h, s);
    assert VoteOk(h, s, v);
    NodeOf(c, h, v);
  }

  /** No quorum acknowledges a term's new entries after a later term has a leader. */
  lemma StaleWrite(c: Cluster, h: History, g: History, s: Term, t: Term, k: nat)
    requires Inv(c, h) && CountsLater(c, h.acks, g.acks) && h.ids == g.ids
    requires s in h.reigns && t < s && Chosen(g, t, k)
    ensures t in h.reigns && k <= |h.reigns[t].log|
  {
    var q :| ChosenBy(g, t, k, q);
    assert ReignOk(h, s);
    var v := MajoritiesMeet(q, h.reigns[s].electors, h.ids);
    ElectorsMovedOn(c, h, s, v);
    assert (t, v) in g.acks;
    assert AckOk(h, t, v);
  }

  /** No quorum confirms a term's new reads after a later term has a leader. */
  lemma StaleRead(c: Cluster, h: History, g: History, s: Term, t: Term, q: nat, quorum: set<NodeID>)
    requires Inv(c, h) && CountsLater(c, h.readAcks, g.readAcks) && ReignsLater(c, h, g) && h.ids == g.ids
    requires s in h.reigns && t < s && t in g.reigns && ConfirmedBy(g, t, q, quorum) && q <= g.reigns[t].readSeq
    ensures t in h.reigns && q <= h.reigns[t].readSeq
  {
    assert ReignOk(h, s);
    var v := MajoritiesMeet(quorum, h.reigns[s].electors, h.ids);
    ElectorsMovedOn(c, h, s, v);
    if v != g.reigns[t].leader {
      assert (t, v) in g.readAcks && (t, v) in h.readAcks;
    }
  }

  /** Results of earlier terms are shorter than results of later ones. */
  lemma EarlierTerm(h: History, s: Term, x: seq<Entry>, t: Term, y: seq<Entry>)
    requires HistOk(h) && ResultOk(h, s, x) && ResultOk(h, t, y) && s < t
    ensures |x| < |y|
  {
    assert ReignOk(h, s);
    SafeInLeader(h, x, s, t);
    forall k | 0 <= k < |x| ensures h.reigns[t].log[k].term <= s {
      TermsBounded(h.reigns[s].log, k);
      assert h.reigns[t].log[k] == x[k] == h.reigns[s].log[k];
    }
    assert h.reigns[t].log[|y| - 1] == y[|y| - 1];
  }

  /** A write that is new since h comes after every result known to h. */
  lemma LaterWrite(c: Cluster, h: History, c': Cluster, g: History, s: Term, x: seq<Entry>, t: Term, id: RequestID,
      y: seq<Entry>)
    requires Inv(c, h) && Later(c, h, c', g) && HistOk(g) && ResultOk(h, s, x) && WriteResultOk(g, t, id, y)
    requires t in h.reigns ==> forall k :: k in h.reigns[t].writes ==> h.reigns[t].writes[k] != id
    ensures |x| < |y|
  {
    if t in h.reigns { assert ReignLater(h, g, t); }
    if t < s {
      var k := ResultChosen(g, t, y);
      StaleWrite(c, h, g, s, t, k);
    } else if s < t {
      ResultLater(h, g, s, x);
      EarlierTerm(g, s, x, t, y);
    }
  }

  lemma ResultChosen(h: History, t: Term, y: seq<Entry>) returns (k: nat)
    requires HistOk(h) && ResultOk(h, t, y)
    ensures Chosen(h, t, k) && |y| <= k
  {
    var s: Term, k': nat :| s <= t && SafeBy(h, y, s, k');
    k := k';
    assert ReignOk(h, s);
    TermsBounded(h.reigns[s].log, |y| - 1);
  }

  lemma ResultLater(h: History, g: History, t: Term, x: seq<Entry>)
    requires HistLater(h, g) && ResultOk(h, t, x)
    ensures ResultOk(g, t, x)
  {
    assert ReignLater(h, g, t);
    SafeLater(h, g, x, t);
    PrefixTransitive(x, h.reigns[t].log, g.reigns[t].log);
  }

  /** A read that is new since h sees every result known to h. */
  lemma LaterRead(c: Cluster, h: History, c': Cluster, g: History, s: Term, x: seq<Entry>, t: Term, id: RequestID,
      command: Command, y: seq<Entry>)
    requires Inv(c, h) && Later(c, h, c', g) && HistOk(g) && ResultOk(h, s, x) && ReadResultOk(g, t, id, command, y)
    requires t in h.reigns ==> forall q :: q in h.reigns[t].asks ==> h.reigns[t].asks[q].id != id
    ensures |x| <= |y|
  {
    if s < t {
      assert HistLater(h, g) && ResultOk(g, t, y);
      hide *;
      ResultLater(h, g, s, x);
      EarlierTerm(g, s, x, t, y);
      assert |x| <= |y|;
    } else {
      NewRead(c, h, c', g, s, |x|, t, id, command, y);
    }
  }

  /** The same of a read in the term of the result, or an earlier one. */
  lemma NewRead(c: Cluster, h: History, c': Cluster, g: History, s: Term, n: nat, t: Term, id: RequestID,
      command: Command, y: seq<Entry>)
    requires Inv(c, h) && Later(c, h, c', g) && HistOk(g) && ReadResultOk(g, t, id, command, y)
    requires t <= s && s in h.reigns && n <= h.reigns[s].applied
    requires t in h.reigns ==> forall q :: q in h.reigns[t].asks ==> h.reigns[t].asks[q].id != id
    ensures n <= |y|
  {
    var q: nat, quorum :| ReadResultBy(g, t, id, command, |y|, q, quorum);
    assert ReignOk(g, t) && AskedAt(g, t, q);
    if t in h.reigns { assert ReignLater(h, g, t); }
    hide HistOk, NodesOk, MsgsOk, ReignOk, ResultOk, HistLater;
    if t in h.reigns { NewAsk(h.reigns[t], g.reigns[t], t, q, id); }
    if t < s { StaleRead(c, h, g, s, t, q, quorum); }
  }

  lemma NewAsk(a: Reign, b: Reign, t: Term, q: nat, id: RequestID)
    requires ReignGrows(a, b, t) && q in b.asks && b.asks[q].id == id && forall k :: k in a.asks ==> a.asks[k].id != id
    ensures q > a.readSeq && b.asks[q].applied >= a.applied
  {
  }

  /** No leader of term t is handed the request before moment m. */
  ghost predicate NotReached(r: Run, m: nat, t: Term, id: RequestID)
    requires m <= |r.events| && m <= |r.states|
  {
    forall k :: 0 <= k < m ==> (t, id) !in Handed(r.states[k], r.events[k])
  }

  lemma {:induction false} NotHandedBefore(r: Run, m: nat, t: Term, id: RequestID)
    requires m <= |r.events| && m <= |r.states| && NotReached(r, m, t, id)
    ensures (t, id) !in HandedBefore(r, m)
  {
    hide Handed;
    if m > 0 { NotHandedBefore(r, m - 1, t, id); }
  }

  /** Before a request reaches the leader of a term, that leader has not taken it on. */
  lemma NotYetTaken(h: History, t: Term, id: RequestID)
    requires HistOk(h) && (t, id) !in h.handed && t in h.reigns
    ensures forall k :: k in h.reigns[t].writes ==> h.reigns[t].writes[k] != id
    ensures forall q :: q in h.reigns[t].asks ==> h.reigns[t].asks[q].id != id
  {
    assert ReignOk(h, t);
    forall k | k in h.reigns[t].writes ensures h.reigns[t].writes[k] != id {
      assert WrittenAt(h, t, k);
    }
    forall q | q in h.reigns[t].asks ensures h.reigns[t].asks[q].id != id {
      assert AskedAt(h, t, q);
    }
  }

  /** Real-time order: if a result was sent before a request reached the leader that answered
      it, the request's own state extends that result, strictly for a write. It does not matter
      who sent the result, in which term, and which leaders were elected meanwhile. */
  lemma RealTimeOrder(r: Run, m: nat, x: Envelope, b: nat, y: Envelope)
    requires ValidRun(r) && m < |r.states| && b < |r.states|
    requires x in r.states[m].sent && Completes(x)
    requires y in r.states[b].sent && Completes(y) && NotReached(r, m, y.term, y.message.id)
    ensures Prefix(ResultState(x), ResultState(y))
    ensures y.message.response.WriteResponse? ==> |ResultState(x)| < |ResultState(y)|
  {
    var id := y.message.id;
    hide *;
    RunShape(r);
    var hs := TraceOf(r);
    var c := if m <= b then b else m;
    StillSent(r, hs, b, c, y);
    ResultSound(r, hs, m, x);
    ResultSound(r, hs, c, y);
    NotHandedBefore(r, m, y.term, id);
    LaterHistory(r, hs, m, c);
    LaterResult(r.states[m], hs[m], r.states[c], hs[c], x, y);
    SafeAgree(r, hs, m, ResultState(x), x.term, c, ResultState(y), y.term);
  }

  lemma RunShape(r: Run)
    requires ValidRun(r)
    ensures |r.states| == |r.events| + 1
  {
  }

  lemma StillSent(r: Run, hs: seq<History>, a: nat, b: nat, e: Envelope)
    requires ValidRun(r) && Trace(r, hs) && |hs| == |r.states| && a <= b < |hs| && e in r.states[a].sent
    ensures e in r.states[b].sent
  {
    hide *;
    LaterHistory(r, hs, a, b);
    LaterSends(r.states[a], hs[a], r.states[b], hs[b]);
  }

  lemma LaterSends(c: Cluster, h: History, c': Cluster, g: History)
    requires Later(c, h, c', g)
    ensures c.sent <= c'.sent
  {
  }

  lemma LaterResult(c: Cluster, h: History, c': Cluster, g: History, x: Envelope, y: Envelope)
    requires Inv(c, h) && Later(c, h, c', g) && HistOk(h) && HistOk(g)
    requires Completes(x) && ResultOk(h, x.term, ResultState(x))
    requires Completes(y) && (y.term, y.message.id) !in h.handed && MsgOk(g, y)
    ensures |ResultState(x)| <= |ResultState(y)|
    ensures y.message.response.WriteResponse? ==> |ResultState(x)| < |ResultState(y)|
  {
    var s, t := x.term, y.term;
    ResultParts(g, y);
    hide *;
    if t in h.reigns { NotYetTaken(h, t, y.message.id); }
    if y.message.response.WriteResponse? {
      LaterWrite(c, h, c', g, s, ResultState(x), t, y.message.id, ResultState(y));
    } else {
      LaterRead(c, h, c', g, s, ResultState(x), t, y.message.id, y.message.response.command, ResultState(y));
    }
  }

  lemma ResultParts(h: History, e: Envelope)
    requires Completes(e) && MsgOk(h, e)
    ensures e.message.response.WriteResponse? ==> WriteResultOk(h, e.term, e.message.id, ResultState(e))
    ensures e.message.response.ReadResponse? ==>
        ReadResultOk(h, e.term, e.message.id, e.message.response.command, ResultState(e))
  {
  }

  /** In particular, a request submitted, under an id of its own, after some request has
      completed gets a state that extends the other's result. */
  lemma SubmissionOrder(r: Run, m: nat, x: Envelope, b: nat, y: Envelope)
    requires ValidRun(r) && b < |r.states| && m < |r.states|
    requires y in r.states[b].sent && Completes(y) && SubmittedOnceAt(r, m, y.message.id)
    requires x in r.states[m].sent && Completes(x)
    ensures Prefix(ResultState(x), ResultState(y))
    ensures y.message.response.WriteResponse? ==> |ResultState(x)| < |ResultState(y)|
  {
    SubmittedFirst(r, m, y.term, y.message.id);
    hide *;
    RealTimeOrder(r, m, x, b, y);
  }

  /** No request reaches a leader before it is submitted. */
  lemma SubmittedFirst(r: Run, m: nat, t: Term, id: RequestID)
    requires ValidRun(r) && SubmittedOnceAt(r, m, id)
    ensures m <= |r.events| && m <= |r.states| && NotReached(r, m, t, id)
  {
    var hs := TraceOf(r);
    forall k | 0 <= k < m ensures (t, id) !in Handed(r.states[k], r.events[k]) {
      if (t, id) in Handed(r.states[k], r.events[k]) && r.events[k].Deliver? {
        var e := r.events[k].envelope;
        StepOf(r, k);
        RequestSubmitted(r, hs, k, e);
        hide *;
        var j := SubmittedWhen(r, k, e.message.id, e.message.request);
        UsedOnce(r, m, id, j);
      }
    }
  }

  lemma UsedOnce(r: Run, m: nat, id: RequestID, j: nat)
    requires SubmittedOnceAt(r, m, id) && j < |r.events| && r.events[j].Submit? && r.events[j].request == id
    ensures j == m
  {
  }

  lemma RequestSubmitted(r: Run, hs: seq<History>, k: nat, e: Envelope)
    requires ValidRun(r) && Trace(r, hs) && |hs| == |r.states| && k < |r.states|
    requires e in r.states[k].sent && e.message.ClientRequest?
    ensures k <= |r.events| && (e.message.id, e.message.request) in Submitted(r, k)
  {
    assert TraceAt(r, hs, k);
    assert MsgOk(hs[k], e);
  }
}
