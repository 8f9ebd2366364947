/** Where results come from: a result that is sent was computed by some node from entries that
    it had applied and, for a write, committed. */
module RaftResults {
  import opened Basics
  import opened RaftMessage
  import opened RaftLog
  import opened RaftNode
  import opened RaftCluster
  import opened RaftRuns
  import opened RaftSafety
  import opened RaftLinear

  /** The node has applied the state of a result, and committed that of a write. */
  ghost predicate Backed(n: Node, e: Envelope) {
    Completes(e) ==>
      && Prefix(ResultState(e), n.applied)
      && (e.message.response.WriteResponse? ==> |ResultState(e)| <= n.log.commitIndex)
  }

  ghost predicate AllBacked(n: Node, out: set<Envelope>) {
    forall e :: e in out ==> Backed(n, e)
  }

  /** The node loses nothing that it has applied or committed, and what it sends is backed. */
  ghost predicate Sound(n: Node, r: Effect) {
    && Prefix(n.applied, r.node.applied)
    && n.log.commitIndex <= r.node.log.commitIndex
    && AllBacked(r.node, r.out)
  }

  lemma Then(n: Node, a: Effect, b: Effect, p: Option<Panic>)
    requires Sound(n, a) && Sound(a.node, b)
    ensures Sound(n, Effect(b.node, a.out + b.out, p))
  {
    PrefixTransitive(n.applied, a.node.applied, b.node.applied);
    forall e | e in a.out ensures Backed(b.node, e) {
      assert Backed(a.node, e);
      if Completes(e) { PrefixTransitive(ResultState(e), a.node.applied, b.node.applied); }
    }
  }

  /** Messages that are no results. */
  ghost predicate Plain(out: set<Envelope>) {
    forall e :: e in out ==> !Completes(e)
  }

  lemma PlainSound(n: Node, r: Effect)
    requires r.node.applied == n.applied && r.node.log.commitIndex == n.log.commitIndex && Plain(r.out)
    ensures Sound(n, r)
  {
  }

  /** A change of bookkeeping before another effect. */
  lemma TweakSound(n: Node, x: Node, r: Effect)
    requires x.applied == n.applied && x.log.commitIndex == n.log.commitIndex && Sound(x, r)
    ensures Sound(n, r)
  {
  }

  // ---------------------------------------------------------------- the leader

  lemma CommitAndApplySound(n: Node, k: Index)
    requires Valid(n) && n.role.Leader? && n.log.commitIndex < k <= |n.log.entries|
    ensures Sound(n, CommitAndApply(n, k))
  {
  }

  lemma MaybeReadSound(n: Node)
    requires Valid(n) && n.role.Leader?
    ensures Sound(n, MaybeRead(n))
  {
  }

  lemma MaybeCommitSound(n: Node)
    requires Valid(n) && n.role.Leader?
    ensures Sound(n, MaybeCommitAndApply(n))
  {
    var k := QuorumIndex(n);
    CommitCases(n, k);
    hide Valid, QuorumIndex, CommitAndApply, MaybeRead, MaybeCommitAndApply, Sound;
    PlainSound(n, Effect(n, {}, None));
    if k > n.log.commitIndex && n.log.entries[k - 1].term == n.log.term {
      var c := CommitAndApply(n, k);
      CommitAndApplySound(n, k);
      MaybeReadSound(c.node);
      Then(n, c, MaybeRead(c.node), None);
    }
  }

  lemma MaybeSendSound(n: Node, peer: NodeID, probe: bool)
    requires Valid(n) && n.role.Leader? && peer in n.peers
    ensures Sound(n, MaybeSendAppend(n, peer, probe))
  {
    SentPlain(n.log.entries, n.opts, n.role.progress[peer], probe);
    hide NextAppend, Valid;
  }

  lemma SentPlain(es: seq<Entry>, opts: Options, p: Progress, probe: bool)
    requires ProgressOk(p, |es|)
    ensures var m := NextAppend(es, opts, p, probe).1; m.Some? ==> m.value.Append?
  {
  }

  lemma ProposeSound(n: Node, command: Option<Command>)
    requires n.role.Leader? && n.id !in n.peers && WellFormed(n.log)
    requires n.log.term > 0 && n.log.vote == Some(n.id)
    requires n.role.progress.Keys == n.peers && ProgressAllOk(n.role.progress, |n.log.entries|)
    ensures Sound(n, ProposeAs(n, command))
  {
    var log := AppendCommand(n.log, command);
    forall p | p in n.role.progress
      ensures var m := NextAppend(log.entries, n.opts, n.role.progress[p], false).1; m.Some? ==> m.value.Append?
    {
      SentPlain(log.entries, n.opts, n.role.progress[p], false);
    }
    hide NextAppend;
  }

  lemma LeaderConfirmSound(n: Node, peer: NodeID, readSeq: nat)
    requires Valid(n) && n.role.Leader? && peer in n.peers
    ensures Sound(n, LeaderConfirm(n, peer, readSeq))
  {
    var a := AdvanceRead(n.role.progress[peer], readSeq);
    hide MaybeRead, Sound;
    PlainSound(n, Effect(n, {}, None));
    if a.Some? {
      MaybeReadSound(SetProgress(n, peer, a.value));
      TweakSound(n, SetProgress(n, peer, a.value), LeaderConfirm(n, peer, readSeq));
    }
  }

  lemma LeaderMatchSound(n: Node, peer: NodeID, matchIndex: Index)
    requires Valid(n) && n.role.Leader? && peer in n.peers && matchIndex <= |n.log.entries|
    ensures Sound(n, LeaderMatch(n, peer, matchIndex))
  {
    var a := Advance(n.role.progress[peer], matchIndex);
    hide MaybeCommitAndApply, Sound;
    PlainSound(n, Effect(n, {}, None));
    if a.Some? {
      MaybeCommitSound(SetProgress(n, peer, a.value));
      TweakSound(n, SetProgress(n, peer, a.value), LeaderMatch(n, peer, matchIndex));
    }
  }

  lemma LeaderProbeSound(n: Node, peer: NodeID, nextIndex: Index, force: bool)
    requires Valid(n) && n.role.Leader? && peer in n.peers && nextIndex <= |n.log.entries|
    ensures Sound(n, LeaderProbe(n, peer, nextIndex, force))
  {
    var a := RegressNext(n.role.progress[peer], nextIndex);
    var x := if a.Some? then SetProgress(n, peer, a.value) else n;
    hide MaybeSendAppend, Sound;
    PlainSound(n, Effect(n, {}, None));
    if a.Some? || force {
      MaybeSendSound(x, peer, true);
      TweakSound(n, x, LeaderProbe(n, peer, nextIndex, force));
    }
  }

  lemma HeartbeatResponseSound(n: Node, e: Envelope)
    requires Valid(n) && n.role.Leader? && e.message.HeartbeatResponse?
    ensures Sound(n, LeaderHeartbeatResponse(n, e))
  {
    var m, r := e.message, LeaderHeartbeatResponse(n, e);
    hide LeaderConfirm, LeaderProbe, LeaderMatch, Sound;
    if m.hbMatchIndex > |n.log.entries| || m.hbConfirmSeq > n.role.readSeq || e.from !in n.peers {
      PlainSound(n, r);
    } else {
      var a := LeaderConfirm(n, e.from, m.hbConfirmSeq);
      LeaderConfirmSound(n, e.from, m.hbConfirmSeq);
      var b := if m.hbMatchIndex == 0 then LeaderProbe(a.node, e.from, |n.log.entries|, true)
               else Effect(a.node, {}, None);
      if m.hbMatchIndex == 0 {
        LeaderProbeSound(a.node, e.from, |n.log.entries|, true);
      } else {
        PlainSound(a.node, b);
      }
      var c := LeaderMatch(b.node, e.from, m.hbMatchIndex);
      LeaderMatchSound(b.node, e.from, m.hbMatchIndex);
      Then(n, a, b, None);
      Then(n, Effect(b.node, a.out + b.out, None), c, None);
    }
  }

  lemma AppendResponseSound(n: Node, e: Envelope)
    requires Valid(n) && n.role.Leader? && e.message.AppendResponse?
    ensures Sound(n, LeaderAppendResponse(n, e))
  {
    var m, r := e.message, LeaderAppendResponse(n, e);
    hide LeaderMatch, LeaderProbe, MaybeSendAppend, Sound;
    if m.rejectIndex == 0 && 0 < m.matchIndex <= |n.log.entries| && e.from in n.peers {
      var a := LeaderMatch(n, e.from, m.matchIndex);
      LeaderMatchSound(n, e.from, m.matchIndex);
      MaybeSendSound(a.node, e.from, false);
      Then(n, a, MaybeSendAppend(a.node, e.from, false), None);
    } else if m.matchIndex == 0 && 0 < m.rejectIndex <= |n.log.entries| && e.from in n.peers
        && m.rejectIndex > n.role.progress[e.from].matchIndex {
      LeaderProbeSound(n, e.from, m.rejectIndex, false);
    } else {
      PlainSound(n, r);
    }
  }

  lemma LeaderWriteSound(n: Node, from: NodeID, id: RequestID, command: Command)
    requires Valid(n) && n.role.Leader?
    ensures Sound(n, LeaderWrite(n, from, id, command))
  {
    var p := ProposeAs(n, Some(command));
    ProposeSound(n, Some(command));
    var x := p.node.(role := p.node.role.(writes := p.node.role.writes[|p.node.log.entries| := Write(from, id)]));
    hide ProposeAs, MaybeCommitAndApply;
    assert Sound(n, Effect(x, p.out, None));
    if |n.peers| == 0 {
      MaybeCommitSound(x);
      hide Sound;
      Then(n, Effect(x, p.out, None), MaybeCommitAndApply(x), None);
    }
  }

  lemma LeaderReadSound(n: Node, from: NodeID, id: RequestID, command: Command)
    requires Valid(n) && n.role.Leader?
    ensures Sound(n, LeaderRead(n, from, id, command))
  {
    var q := n.role.readSeq + 1;
    var x := n.(role := n.role.(readSeq := q, readQueue := n.role.readQueue + [Read(q, from, id, command)]));
    var a := Effect(x, Broadcast(n, ReadConfirm(q)), None);
    PlainSound(n, a);
    hide MaybeRead, Sound;
    if |n.peers| == 0 {
      MaybeReadSound(x);
      Then(n, a, MaybeRead(x), None);
    }
  }

  lemma LeaderStepSound(n: Node, e: Envelope)
    requires Valid(n) && n.role.Leader? && e.term == n.log.term
    ensures Sound(n, LeaderStep(n, e))
  {
    hide LeaderHeartbeatResponse, LeaderAppendResponse, LeaderConfirm, LeaderWrite, LeaderRead, Sound;
    match e.message
    case HeartbeatResponse(_, _) => HeartbeatResponseSound(n, e);
    case AppendResponse(_, _) => AppendResponseSound(n, e);
    case ReadConfirmed(seqNo) =>
      if e.from in n.peers { LeaderConfirmSound(n, e.from, seqNo); } else { PlainSound(n, LeaderStep(n, e)); }
    case ClientRequest(id, WriteRequest(command)) => LeaderWriteSound(n, e.from, id, command);
    case ClientRequest(id, ReadRequest(command)) => LeaderReadSound(n, e.from, id, command);
    case _ => PlainSound(n, LeaderStep(n, e));
  }

  // ---------------------------------------------------------------- elections

  lemma IntoLeaderSound(n: Node)
    requires Valid(n) && n.role.Candidate?
    ensures Sound(n, IntoLeader(n))
  {
    var p := Promote(n);
    var next := |n.log.entries| + 1;
    var x := n.(role := Leader(map q | q in n.peers :: Progress(0, next, 0), map[], [], 0, 0));
    ProposeSound(x, None);
    TweakSound(n, x, p);
    var c := MaybeCommitAndApply(p.node);
    var h := SendHeartbeat(c.node);
    PlainSound(c.node, h);
    hide Promote, MaybeCommitAndApply, SendHeartbeat, Sound;
    MaybeCommitSound(p.node);
    Then(n, p, c, None);
    Then(n, Effect(c.node, p.out + c.out, None), h, None);
  }

  lemma CampaignSound(n: Node, timeout: nat)
    requires Valid(n) && n.role.Follower?
    ensures Sound(n, IntoCandidate(n, timeout))
  {
  }

  // ---------------------------------------------------------------- the follower

  /** A follower only passes results on. */
  ghost predicate Relayed(r: Effect, e: Envelope) {
    forall o :: o in r.out && Completes(o) ==> Completes(e) && o.message == e.message
  }

  lemma FollowerRelays(n: Node, e: Envelope)
    requires Valid(n) && n.role.Follower? && e.term == n.log.term
    ensures Relayed(FollowerStep(n, e), e)
  {
  }

  lemma NewTermPlain(n: Node, term: Term, timeout: nat)
    requires Valid(n) && !n.role.Halted? && term > n.log.term
    ensures Plain(NewTerm(n, term, timeout).out)
  {
  }

  // ---------------------------------------------------------------- any node

  /** Every result a node sends is backed by its new state, or passed on. */
  ghost predicate Sourced(r: Effect, e: Envelope) {
    forall o :: o in r.out && Completes(o) ==> Backed(r.node, o) || (Completes(e) && o.message == e.message)
  }

  lemma StepSourced(n: Node, e: Envelope, timeout: nat)
    requires Valid(n) && !n.role.Halted?
    ensures Sourced(Step(n, e, timeout), e)
  {
    hide FollowerStep, LeaderStep, NewTerm, Completes, Backed;
    if e.term > n.log.term {
      NewTermPlain(n, e.term, timeout);
      FollowerRelays(NewTerm(n, e.term, timeout).node, e);
    } else if e.term == n.log.term {
      match n.role
      case Follower(_, _, _, _) => FollowerRelays(n, e);
      case Candidate(_, _, _) => CandidateSourced(n, e, timeout);
      case Leader(_, _, _, _, _) => LeaderStepSound(n, e);
    }
  }

  lemma CandidateSourced(n: Node, e: Envelope, timeout: nat)
    requires Valid(n) && n.role.Candidate? && e.term == n.log.term
    ensures Sourced(CandidateStep(n, e, timeout), e)
  {
    hide FollowerStep, IntoLeader, Backed;
    if e.message.CampaignResponse? && e.message.vote {
      IntoLeaderSound(n.(role := n.role.(votes := n.role.votes + {e.from})));
    }
    if e.from in n.peers { FollowerRelays(n.(role := Follower(Some(e.from), 0, timeout, {})), e); }
  }

  lemma TickPlain(n: Node, timeout: nat)
    requires Valid(n) && !n.role.Halted?
    ensures Plain(Tick(n, timeout).out)
  {
  }

  lemma NewNodeBacked(id: NodeID, peers: set<NodeID>, opts: Options, log: LogState, applied: seq<Entry>, timeout: nat)
    requires id !in peers && WellFormed(log)
    ensures var r := NewNode(id, peers, opts, log, applied, timeout); AllBacked(r.node, r.out)
  {
    if |peers| == 0 {
      var n := Node(id, peers, opts, log, ApplyCommitted(log, applied), Follower(None, 0, timeout, {}));
      var c := IntoCandidate(n, timeout);
      CampaignSound(n, timeout);
      IntoLeaderSound(c.node);
      hide IntoCandidate, IntoLeader, Sound;
      Then(n, c, IntoLeader(c.node), None);
      SoundBacked(n, Effect(IntoLeader(c.node).node, c.out + IntoLeader(c.node).out, None));
    }
  }

  lemma SoundBacked(n: Node, r: Effect)
    requires Sound(n, r)
    ensures AllBacked(r.node, r.out)
  {
  }

  // ---------------------------------------------------------------- runs

  /** What an event makes a node do. */
  lemma NewlySent(c: Cluster, ev: Event, c': Cluster, e: Envelope) returns (i: NodeID)
    requires Next(c, ev, c') && e in c'.sent && e !in c.sent && Completes(e)
    ensures i in c'.nodes
    ensures Backed(c'.nodes[i], e) || (ev.Deliver? && ev.envelope in c.sent && ev.envelope.message == e.message)
  {
    hide Step, Tick, NewNode, Valid, Completes, Backed;
    match ev
    case Deliver(o, timeout) =>
      i := o.to;
      StepSourced(c.nodes[i], o, timeout);
      Installed(c, i, Step(c.nodes[i], o, timeout), e);
    case Clock(j, timeout) =>
      i := j;
      TickPlain(c.nodes[i], timeout);
    case Submit(j, id, body, timeout) =>
      i := j;
      var o := Envelope(i, c.nodes[i].log.term, i, ClientRequest(id, body));
      NoResult(o);
      StepSourced(c.nodes[i], o, timeout);
      Installed(c, i, Step(c.nodes[i], o, timeout), e);
    case Restart(j, commitIndex, k, timeout) =>
      i := j;
      var n := c.nodes[i];
      RestartedShape(n);
      var log := Recovered(n.log, commitIndex);
      NewNodeBacked(n.id, n.peers, n.opts, log, n.applied[..k], timeout);
      Installed(c, i, NewNode(n.id, n.peers, n.opts, log, n.applied[..k], timeout), e);
  }

  lemma RestartedShape(n: Node)
    requires Valid(n)
    ensures n.id !in n.peers && WellFormed(n.log)
  {
  }

  lemma NoResult(e: Envelope)
    requires e.message.ClientRequest?
    ensures !Completes(e)
  {
  }

  /** Halting a node does not change its log or what it has applied. */
  lemma Installed(c: Cluster, i: NodeID, r: Effect, e: Envelope)
    requires i in c.nodes
    ensures Backed(r.node, e) ==> Backed(Install(c, i, r).nodes[i], e)
  {
  }

  /** Every result was computed by a node from a state that it had applied by then and, for a
      write, committed. */
  lemma {:induction false} ResultsComputed(r: Run, k: nat, e: Envelope) returns (a: nat, i: NodeID)
    requires ValidRun(r) && k < |r.states| && e in r.states[k].sent && Completes(e)
    ensures a <= k && At(r, a, i) && Prefix(ResultState(e), NodeAt(r, a, i).applied)
    ensures e.message.response.WriteResponse? ==> Prefix(ResultState(e), Committed(NodeAt(r, a, i).log))
    decreases k
  {
    FirstSent(r, k, e);
    if e in r.states[k - 1].sent {
      hide *;
      a, i := ResultsComputed(r, k - 1, e);
    } else {
      var c, ev, c' := r.states[k - 1], r.events[k - 1], r.states[k];
      StepOf(r, k - 1);
      i := NewlySent(c, ev, c', e);
      if Backed(c'.nodes[i], e) {
        a := k;
        hide Next, ValidRun;
        if e.message.response.WriteResponse? { AppliedCommitted(r, k, i, ResultState(e)); }
      } else {
        hide *;
        a, i := ResultsComputed(r, k - 1, ev.envelope);
      }
    }
  }

  lemma FirstSent(r: Run, k: nat, e: Envelope)
    requires ValidRun(r) && k < |r.states| && e in r.states[k].sent
    ensures k > 0 && |r.states| == |r.events| + 1
  {
  }

  /** What a node has applied up to its commit index is what it has committed. */
  lemma AppliedCommitted(r: Run, k: nat, i: NodeID, state: seq<Entry>)
    requires At(r, k, i) && Prefix(state, NodeAt(r, k, i).applied) && |state| <= NodeAt(r, k, i).log.commitIndex
    ensures Prefix(state, Committed(NodeAt(r, k, i).log))
  {
    var hs := TraceOf(r);
    var n := NodeAt(r, k, i);
    NodeInvariant(r, hs, k, i);
    assert |Committed(n.log)| == n.log.commitIndex;
    hide *;
    StateMachineSafety(r, k, i, k, i);
    NestedIn(state, n.applied, Committed(n.log));
  }

  lemma NestedIn(p: seq<Entry>, a: seq<Entry>, b: seq<Entry>)
    requires Prefix(p, a) && Agree(a, b) && |p| <= |b|
    ensures Prefix(p, b)
  {
    if Prefix(a, b) { PrefixTransitive(p, a, b); } else { PrefixesNest(p, b, a); }
  }

  /** A successful write response means that the very command submitted under its id had been
      committed and applied by some node. */
  lemma WritesApplied(r: Run, k: nat, e: Envelope) returns (m: nat, a: nat, i: NodeID)
    requires ValidRun(r) && k < |r.states| && e in r.states[k].sent && Completes(e)
    requires e.message.response.WriteResponse?
    ensures m < k && r.events[m].Submit? && r.events[m].request == e.message.id && r.events[m].body.WriteRequest?
    ensures a <= k && At(r, a, i)
    ensures var index, n := |ResultState(e)|, NodeAt(r, a, i);
            && 1 <= index <= |n.applied| && index <= |Committed(n.log)|
            && n.applied[..index] == ResultState(e) == Committed(n.log)[..index]
            && n.applied[index - 1].command == Some(r.events[m].body.command)
  {
    m := ResultsWereAsked(r, k, e);
    a, i := ResultsComputed(r, k, e);
    var state := ResultState(e);
    assert r.events[m].body == Asked(e);
    WriteNotStatus(r, k, e);
    hide ValidRun, At, NodeAt, Committed;
    assert NodeAt(r, a, i).applied[|state| - 1] == state[|state| - 1];
  }

  lemma WriteNotStatus(r: Run, k: nat, e: Envelope)
    requires ValidRun(r) && k < |r.states| && e in r.states[k].sent && Completes(e)
    requires e.message.response.WriteResponse?
    ensures var state := ResultState(e); state != [] && state[|state| - 1].command.Some?
  {
    var hs := TraceOf(r);
    ResultSound(r, hs, k, e);
    hide *;
    WriteHasCommand(hs[k], e);
  }
}
