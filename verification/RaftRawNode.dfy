/** The Raft node in place (src/raft/node.rs): fields updated by handlers that loop over peers,
    entries and requests. Every method does to its fields, and sends, what the handler of the
    same name in `RaftNode` says. Channels keep what was sent; its order does not matter. */
module RaftRawNode {
  import opened Basics
  import opened RaftMessage
  import opened RaftLog
  import opened RaftLogStore
  import opened RaftQuorum
  import opened RaftNode

  /** What went into a channel. */
  function Sent(tx: seq<Envelope>): set<Envelope> {
    set e | e in tx
  }

  /** What a channel has been sent since, in how many envelopes. */
  ghost predicate Adds(before: seq<Envelope>, after: seq<Envelope>, out: set<Envelope>, n: nat) {
    |after| == |before| + n && before <= after && Sent(after[|before|..]) == out
  }

  /** The batch holds one envelope for each of the items. */
  ghost predicate OneEach(batch: seq<Envelope>, order: seq<nat>, mail: nat -> Envelope) {
    |batch| == |order| && forall i :: 0 <= i < |order| ==> batch[i] == mail(order[i])
  }

  lemma SentBatch(tx: seq<Envelope>, batch: seq<Envelope>, order: seq<nat>, items: set<nat>, mail: nat -> Envelope)
    requires OneEach(batch, order, mail) && forall i :: i in order <==> i in items
    ensures Sent(tx + batch) == Sent(tx) + set i | i in items :: mail(i)
    ensures Adds(tx, tx + batch, set i | i in items :: mail(i), |order|)
  {
    assert (tx + batch)[|tx|..] == batch;
    assert Sent(tx + batch) == Sent(tx) + Sent(batch);
    forall i | i in items ensures mail(i) in Sent(batch) {
      var k :| 0 <= k < |order| && order[k] == i;
      assert batch[k] == mail(i);
    }
    forall e | e in Sent(batch) ensures exists i :: i in items && mail(i) == e {
      var k :| 0 <= k < |batch| && batch[k] == e;
      assert order[k] in items && mail(order[k]) == e;
    }
  }

  /** The order in which a set is gone through. */
  method InOrder(items: set<nat>) returns (order: seq<nat>)
    ensures InAscending(order, items)
  {
    order := Ascending(items);
  }

  class RawNode {
    const id: NodeID
    const peers: set<NodeID>
    const opts: Options
    const log: LogStore
    var applied: seq<Entry>
    var role: Role
    var tx: seq<Envelope>

    ghost function Value(): Node
      reads this, log
    {
      Node(id, peers, opts, log.log, applied, role)
    }

    ghost predicate Valid()
      reads this, log
    {
      log.Valid() && RaftNode.Valid(Value())
    }

    /** The node is now as the effect says, and has sent what it says since `before`. */
    ghost predicate Does(r: Effect, before: seq<Envelope>)
      reads this, log
    {
      log.Valid() && Value() == r.node && Sent(tx) == Sent(before) + r.out
    }

    /** Reopens a node over its log and state machine, and applies what is committed. */
    constructor (id: NodeID, peers: set<NodeID>, log: LogStore, applied: seq<Entry>, opts: Options, timeout: nat)
      requires id !in peers && log.Valid()
      ensures Valid() && this.log == log && this.id == id && this.peers == peers && this.opts == opts && tx == []
      ensures role == Follower(None, 0, timeout, {}) && this.applied == ApplyCommitted(log.log, applied)
    {
      this.id, this.peers, this.opts, this.log := id, peers, opts, log;
      this.applied, this.tx := applied, [];
      role := Follower(None, 0, timeout, {});
      new;
      MaybeApply();
    }

    // -------------------------------------------------------------- sending

    method Send(to: NodeID, message: Message)
      requires log.Valid()
      modifies this`tx
      ensures tx == old(tx) + [Mail(Value(), to, message)]
      ensures Sent(tx) == Sent(old(tx)) + {Mail(Value(), to, message)}
    {
      tx := tx + [Envelope(id, log.term, to, message)];
    }

    /** One envelope to each peer. */
    method SendAll(message: Message)
      requires log.Valid()
      modifies this`tx
      ensures Adds(old(tx), tx, Broadcast(Value(), message), |peers|)
      ensures Sent(tx) == Sent(old(tx)) + Broadcast(Value(), message)
    {
      var order := Ascending(peers);
      hide Ascending, LogStore.Valid;
      ghost var batch: seq<Envelope>, term := [], log.log.term;
      ghost var mail := (p: nat) => Envelope(id, term, p, message);
      for k := 0 to |order|
        invariant tx == old(tx) + batch && OneEach(batch, order[..k], mail)
      {
        batch := batch + [mail(order[k])];
        Send(order[k], message);
      }
      assert order[..|order|] == order;
      SentBatch(old(tx), batch, order, peers, mail);
      OrderSize(order, peers);
    }

    method RespondTo(to: NodeID, request: RequestID, response: Response)
      requires log.Valid()
      modifies this`tx
      ensures tx == old(tx) + [Respond(Value(), to, request, response)]
      ensures Sent(tx) == Sent(old(tx)) + {Respond(Value(), to, request, response)}
    {
      Send(to, ClientResponse(request, response));
    }

    // -------------------------------------------------------------- follower

    /** Applies the committed entries after the applied ones. */
    method MaybeApply()
      requires log.Valid()
      modifies this`applied
      ensures applied == ApplyCommitted(log.log, old(applied))
    {
      var entries := log.ScanApply(|applied|);
      for k := 0 to |entries|
        invariant applied == old(applied) + entries[..k]
      {
        applied := applied + [entries[k]];
      }
    }

    method AbortForwarded()
      requires log.Valid() && role.Follower?
      modifies this`tx, this`role
      ensures role == old(role).(forwarded := {})
      ensures Adds(old(tx), tx, AbortAll(old(Value()), old(role).forwarded), |old(role).forwarded|)
      ensures Sent(tx) == Sent(old(tx)) + AbortAll(old(Value()), old(role).forwarded)
    {
      var order := Ascending(role.forwarded);
      hide Ascending, LogStore.Valid;
      role := role.(forwarded := {});
      ghost var batch: seq<Envelope>, me, term := [], id, log.log.term;
      ghost var mail := (r: nat) => Envelope(me, term, me, ClientResponse(r, Abort));
      for k := 0 to |order|
        invariant tx == old(tx) + batch && OneEach(batch, order[..k], mail)
        invariant role == old(role).(forwarded := {})
      {
        batch := batch + [mail(order[k])];
        RespondTo(id, order[k], Abort);
      }
      assert order[..|order|] == order;
      ghost var requests := old(role).forwarded;
      SentBatch(old(tx), batch, order, requests, mail);
      OrderSize(order, requests);
      assert AbortAll(old(Value()), requests) == set r | r in requests :: mail(r);
    }

    method FollowerNewTerm(term: Term, timeout: nat)
      requires Valid() && role.Follower? && term > log.log.term
      modifies this, log
      ensures Does(RaftNode.FollowerNewTerm(old(Value()), term, timeout), old(tx))
    {
      AbortForwarded();
      log.SetTermAndVote(term, None);
      role := Follower(None, 0, timeout, {});
    }

    method StartCampaign(timeout: nat)
      requires id !in peers && log.Valid()
      modifies this, log
      ensures Does(RaftNode.StartCampaign(old(Value()), timeout), old(tx))
    {
      role := Candidate({id}, 0, timeout);
      log.SetTermAndVote(log.term + 1, Some(id));
      SendAll(Campaign(log.lastIndex, log.lastTerm));
    }

    method IntoCandidate(timeout: nat)
      requires Valid() && role.Follower?
      modifies this, log
      ensures Does(RaftNode.IntoCandidate(old(Value()), timeout), old(tx))
    {
      AbortForwarded();
      MaybeApply();
      StartCampaign(timeout);
    }

    method HearLeader(from: NodeID) returns (panic: Option<Panic>)
      requires Valid() && role.Follower?
      modifies this`role
      ensures Does(RaftNode.HearLeader(old(Value()), from), tx)
      ensures panic == RaftNode.HearLeader(old(Value()), from).panic
    {
      if role.leader.Some? { return if role.leader.value == from then None else Some(MultipleLeaders); }
      if log.term == 0 { return Some(TermZero); }
      if from !in peers { return Some(LeaderNotPeer); }
      role := Follower(Some(from), 0, role.electionTimeout, {});
      return None;
    }

    method FollowerHeartbeat(e: Envelope) returns (panic: Option<Panic>)
      requires Valid() && role.Follower? && e.message.Heartbeat?
      modifies this, log
      ensures Does(RaftNode.FollowerHeartbeat(old(Value()), e), old(tx))
      ensures panic == RaftNode.FollowerHeartbeat(old(Value()), e).panic
    {
      var m := e.message;
      if m.hbCommitIndex > m.hbLastIndex { return Some(CommitAfterLast); }
      panic := HearLeader(e.from);
      if panic.Some? { return; }
      var has := log.HasEntry(m.hbLastIndex, e.term);
      var matched := if has then m.hbLastIndex else 0;
      Send(e.from, HeartbeatResponse(matched, m.hbReadSeq));
      if matched != 0 && m.hbCommitIndex > log.commitIndex {
        log.CommitTo(m.hbCommitIndex);
        MaybeApply();
      }
    }

    method FollowerAppend(e: Envelope) returns (panic: Option<Panic>)
      requires Valid() && role.Follower? && e.message.Append?
      modifies this, log
      ensures Does(RaftNode.FollowerAppend(old(Value()), e), old(tx))
      ensures panic == RaftNode.FollowerAppend(old(Value()), e).panic
    {
      var m := e.message;
      if m.entries != [] && m.entries[0].index != m.baseIndex + 1 { return Some(BaseIndexMismatch); }
      panic := HearLeader(e.from);
      if panic.Some? { return; }
      var has := log.HasEntry(m.baseIndex, m.baseTerm);
      if m.baseIndex == 0 || has {
        var fault := log.SpliceIn(m.entries);
        if fault.Some? { return Some(SpliceFailed(fault.value)); }
        var matched := if m.entries == [] then m.baseIndex else m.entries[|m.entries| - 1].index;
        Send(e.from, AppendResponse(matched, 0));
      } else {
        Send(e.from, AppendResponse(0, Min(m.baseIndex, log.lastIndex + 1)));
      }
    }

    method FollowerRead(e: Envelope) returns (panic: Option<Panic>)
      requires Valid() && role.Follower? && e.message.ReadConfirm?
      modifies this
      ensures Does(RaftNode.FollowerRead(old(Value()), e), old(tx))
      ensures panic == RaftNode.FollowerRead(old(Value()), e).panic
    {
      panic := HearLeader(e.from);
      if panic.Some? { return; }
      Send(e.from, ReadConfirmed(e.message.seqNo));
    }

    method FollowerCampaign(e: Envelope) returns (panic: Option<Panic>)
      requires Valid() && role.Follower? && e.message.Campaign? && e.term == log.log.term
      modifies this, log
      ensures Does(RaftNode.FollowerCampaign(old(Value()), e), old(tx))
      ensures panic == RaftNode.FollowerCampaign(old(Value()), e).panic
    {
      var m := e.message;
      if log.vote.Some? && log.vote.value != e.from {
        Send(e.from, CampaignResponse(false));
        return None;
      }
      if log.lastTerm > m.lastTerm || (log.lastTerm == m.lastTerm && log.lastIndex > m.lastIndex) {
        Send(e.from, CampaignResponse(false));
        return None;
      }
      if e.term == 0 { return Some(TermZero); }
      log.SetTermAndVote(e.term, Some(e.from));
      Send(e.from, CampaignResponse(true));
      return None;
    }

    method FollowerClientRequest(e: Envelope) returns (panic: Option<Panic>)
      requires Valid() && role.Follower? && e.message.ClientRequest?
      modifies this
      ensures Does(RaftNode.FollowerClientRequest(old(Value()), e), old(tx))
      ensures panic == RaftNode.FollowerClientRequest(old(Value()), e).panic
    {
      if e.from != id { return Some(ForeignClientRequest); }
      if role.leader.Some? {
        role := role.(forwarded := role.forwarded + {e.message.id});
        Send(role.leader.value, e.message);
      } else {
        RespondTo(e.from, e.message.id, Abort);
      }
      return None;
    }

    method FollowerClientResponse(e: Envelope) returns (panic: Option<Panic>)
      requires Valid() && role.Follower? && e.message.ClientResponse?
      modifies this
      ensures Does(RaftNode.FollowerClientResponse(old(Value()), e), old(tx))
      ensures panic == RaftNode.FollowerClientResponse(old(Value()), e).panic
    {
      if role.leader != Some(e.from) { return Some(ForeignClientResponse); }
      if e.message.id in role.forwarded {
        role := role.(forwarded := role.forwarded - {e.message.id});
        RespondTo(id, e.message.id, e.message.response);
      }
      return None;
    }

    method FollowerStep(e: Envelope) returns (panic: Option<Panic>)
      requires Valid() && role.Follower? && e.term == log.log.term
      modifies this, log
      ensures Does(RaftNode.FollowerStep(old(Value()), e), old(tx))
      ensures panic == RaftNode.FollowerStep(old(Value()), e).panic
    {
      hide RaftNode.FollowerHeartbeat, RaftNode.FollowerAppend, RaftNode.FollowerRead, RaftNode.FollowerCampaign;
      hide RaftNode.FollowerClientRequest, RaftNode.FollowerClientResponse, LogStore.Valid, Sent;
      if role.leader == Some(e.from) { role := role.(leaderSeen := 0); }
      match e.message
      case Heartbeat(_, _, _) => panic := FollowerHeartbeat(e);
      case Append(_, _, _) => panic := FollowerAppend(e);
      case ReadConfirm(_) => panic := FollowerRead(e);
      case Campaign(_, _) => panic := FollowerCampaign(e);
      case ClientRequest(_, _) => panic := FollowerClientRequest(e);
      case ClientResponse(_, _) => panic := FollowerClientResponse(e);
      case CampaignResponse(_) => panic := None;
      case HeartbeatResponse(_, _) => panic := Some(UnexpectedMessage);
      case AppendResponse(_, _) => panic := Some(UnexpectedMessage);
      case ReadConfirmed(_) => panic := Some(UnexpectedMessage);
    }

    // -------------------------------------------------------------- candidate

    method CandidateNewTerm(term: Term, timeout: nat)
      requires Valid() && role.Candidate? && term > log.log.term
      modifies this, log
      ensures Does(RaftNode.CandidateNewTerm(old(Value()), term, timeout), old(tx))
    {
      log.SetTermAndVote(term, None);
      role := Follower(None, 0, timeout, {});
    }

    // -------------------------------------------------------------- leader

    /** Sends a batch of entries to a peer, or an empty probe. */
    method MaybeSendAppend(peer: NodeID, probe: bool)
      requires Valid() && role.Leader? && peer in peers
      modifies this
      ensures Does(RaftNode.MaybeSendAppend(old(Value()), peer, probe), old(tx))
    {
      var progress := role.progress[peer];
      PeerFacts(Value(), peer);
      NothingToSend(Value(), peer, probe);
      hide RaftNode.Valid, RaftNode.MaybeSendAppend, Sent;
      if progress.matchIndex == log.lastIndex { return; }
      var probing := probe && progress.nextIndex > progress.matchIndex + 1;
      if progress.nextIndex > log.lastIndex && !probing { return; }
      SendBatch(peer, probe, probing);
    }

    method SendBatch(peer: NodeID, ghost probe: bool, probing: bool)
      requires Valid() && role.Leader? && peer in peers
      requires var p := role.progress[peer];
               && probing == (probe && p.nextIndex > p.matchIndex + 1)
               && p.matchIndex != |log.log.entries| && (p.nextIndex <= |log.log.entries| || probing)
      modifies this
      ensures Does(RaftNode.MaybeSendAppend(old(Value()), peer, probe), old(tx))
    {
      ghost var n := Value();
      var progress := role.progress[peer];
      PeerFacts(n, peer);
      hide RaftNode.Valid, RaftNode.MaybeSendAppend, Sent;
      var baseIndex, baseTerm := BaseOf(progress.nextIndex);
      var entries := [];
      if !probing { entries := log.Scan(progress.nextIndex, progress.nextIndex + opts.maxAppendEntries - 1); }
      SendsBatch(n, peer, probe, entries);
      hide *;
      SendAppend(peer, baseIndex, baseTerm, entries);
    }

    method SendAppend(peer: NodeID, baseIndex: Index, baseTerm: Term, entries: seq<Entry>)
      requires log.Valid() && role.Leader? && peer in role.progress
      modifies this
      ensures var p := old(role.progress[peer]);
              var p' := if entries == [] then p else p.(nextIndex := entries[|entries| - 1].index + 1);
              Value() == old(Value()).(role := if entries == [] then old(role)
                                               else old(role).(progress := old(role.progress)[peer := p']))
      ensures Sent(tx) == Sent(old(tx)) + {Mail(old(Value()), peer, Append(baseIndex, baseTerm, entries))}
    {
      hide Sent, LogStore.Valid;
      if entries != [] {
        var progress := role.progress[peer].(nextIndex := entries[|entries| - 1].index + 1);
        role := role.(progress := role.progress[peer := progress]);
      }
      Send(peer, Append(baseIndex, baseTerm, entries));
    }

    /** The entry before an index. */
    method BaseOf(next: Index) returns (baseIndex: Index, baseTerm: Term)
      requires log.Valid() && 1 <= next <= |log.log.entries| + 1
      ensures baseIndex == next - 1 && baseTerm == TermAt(log.log.entries, next - 1)
    {
      if next == 1 { return 0, 0; }
      var base := log.Get(next - 1);
      return base.value.index, base.value.term;
    }

    /** Answers the reads that a quorum confirmed. */
    method MaybeRead()
      requires Valid() && role.Leader?
      modifies this
      ensures Does(RaftNode.MaybeRead(old(Value())), old(tx))
    {
      hide Ascending, Lists, SelectQuorum, RaftNode.Valid, RaftNode.MaybeRead, ReadyReads, ReadAnswers, ReadSeqs;
      NothingToRead(Value());
      if role.readQueue == [] { return; }
      if log.commitTerm < log.term || |applied| < log.commitIndex { return; }
      var values := ReadSeqValues();
      ReadQuorum(Value(), Ascending(peers) + [id], values);
      hide *;
      var confirmed := SelectQuorum(values, (|peers| + 1) / 2 + 1);
      AnswerReads(confirmed);
    }

    method AnswerReads(confirmed: nat)
      requires log.Valid() && role.Leader?
      modifies this
      ensures var k := ReadyReads(old(role.readQueue), confirmed);
              && Value() == old(Value()).(role := old(role).(readQueue := old(role.readQueue)[k..]))
              && Sent(tx) == Sent(old(tx)) + ReadAnswers(old(Value()), k)
              && |tx| == |old(tx)| + k && old(tx) <= tx
    {
      ghost var n, k := Value(), ReadyReads(role.readQueue, confirmed);
      hide Sent, ReadAnswers;
      NoAnswers(n);
      ghost var j := 0;
      while role.readQueue != [] && role.readQueue[0].seqNo <= confirmed
        invariant j <= k && role == n.role.(readQueue := n.role.readQueue[j..])
        invariant applied == n.applied && Sent(tx) == Sent(old(tx)) + ReadAnswers(n, j)
        invariant |tx| == |old(tx)| + j && old(tx) <= tx
        decreases |role.readQueue|
      {
        var read := role.readQueue[0];
        role := role.(readQueue := role.readQueue[1..]);
        RespondTo(read.from, read.id, ReadResponse(applied, read.command));
        AnswersOne(n, j);
        j := j + 1;
      }
    }

    method MatchValues() returns (values: seq<nat>)
      requires Valid() && role.Leader?
      ensures Lists(Ascending(peers) + [id], values, MatchIndexes(Value()))
    {
      var order := Ascending(peers);
      hide Ascending;
      values := [];
      for k := 0 to |order|
        invariant |values| == k && forall i :: 0 <= i < k ==> values[i] == role.progress[order[i]].matchIndex
      {
        values := values + [role.progress[order[k]].matchIndex];
      }
      values := values + [log.lastIndex];
      ListsCluster(order, id, values, MatchIndexes(Value()));
    }

    method ReadSeqValues() returns (values: seq<nat>)
      requires Valid() && role.Leader?
      ensures Lists(Ascending(peers) + [id], values, ReadSeqs(Value()))
    {
      var order := Ascending(peers);
      hide Ascending;
      values := [];
      for k := 0 to |order|
        invariant |values| == k && forall i :: 0 <= i < k ==> values[i] == role.progress[order[i]].readSeq
      {
        values := values + [role.progress[order[k]].readSeq];
      }
      values := values + [role.readSeq];
      ListsCluster(order, id, values, ReadSeqs(Value()));
    }

    /** Commits to an index and applies, answering the writes that are waiting. */
    method CommitAndApply(k: Index)
      requires Valid() && role.Leader? && log.log.commitIndex < k <= |log.log.entries|
      modifies this, log
      ensures Does(RaftNode.CommitAndApply(old(Value()), k), old(tx))
    {
      ghost var n := Value();
      CommitFacts(n, k);
      log.CommitTo(k);
      var entries := log.ScanApply(|applied|);
      hide RaftNode.Valid, RaftNode.CommitAndApply, LogStore.Valid, WriteResponses, Waiting;
      ApplyEntries(entries);
    }

    method ApplyEntries(entries: seq<Entry>)
      requires log.Valid() && role.Leader?
      requires forall j :: 0 <= j < |entries| ==> entries[j].index == |applied| + j + 1
      modifies this
      ensures applied == old(applied) + entries
      ensures role == old(role).(writes := Waiting(old(role).writes, |old(applied)|, |applied|))
      ensures Sent(tx) == Sent(old(tx)) + WriteResponses(old(Value()), applied, |old(applied)|)
      ensures |tx| + |role.writes| == |old(tx)| + |old(role).writes| && old(tx) <= tx
    {
      ghost var n := Value();
      NoneAnswered(n, tx);
      hide Sent, WriteResponses, Waiting, LogStore.Valid, Answering, AnswerTo;
      for j := 0 to |entries|
        invariant applied == n.applied + entries[..j] && Answering(n, old(tx), applied, tx)
        invariant role == n.role.(writes := Waiting(n.role.writes, |n.applied|, |applied|))
      {
        NextAnswer(n, old(tx), applied, tx, entries[j]);
        ApplyEntry(entries[j]);
      }
      assert entries[..|entries|] == entries;
      AllAnswered(n, old(tx), applied, tx);
    }

    /** Applies an entry, and answers the write that waits for it. */
    method ApplyEntry(entry: Entry)
      requires log.Valid() && role.Leader?
      modifies this
      ensures applied == old(applied) + [entry] && role == old(role).(writes := old(role).writes - {entry.index})
      ensures tx == old(tx) + AnswerTo(id, log.log.term, old(role).writes, entry.index, applied)
    {
      var write := if entry.index in role.writes then Some(role.writes[entry.index]) else None;
      role := role.(writes := role.writes - {entry.index});
      applied := applied + [entry];
      if write.Some? { RespondTo(write.value.from, write.value.id, WriteResponse(applied)); }
    }

    /** Commits what a quorum holds, if it is of our own term, and applies it. */
    method MaybeCommitAndApply()
      requires Valid() && role.Leader?
      modifies this, log
      ensures Does(RaftNode.MaybeCommitAndApply(old(Value())), old(tx))
    {
      hide RaftNode.Valid, RaftNode.CommitAndApply, RaftNode.MaybeCommitAndApply, RaftNode.MaybeRead, QuorumIndex, Sent;
      var k := QuorumIndexOf();
      CommitCases(Value(), k);
      if k <= log.commitIndex { return; }
      var entry := log.Get(k);
      if entry.value.term != log.term { return; }
      var oldTerm := log.commitTerm;
      CommitAndApply(k);
      if oldTerm != log.term { MaybeRead(); }
    }

    method QuorumIndexOf() returns (k: Index)
      requires Valid() && role.Leader?
      ensures k == QuorumIndex(Value())
    {
      hide Ascending, Lists, SelectQuorum, RaftNode.Valid, QuorumIndex, MatchIndexes;
      var values := MatchValues();
      IndexQuorum(Value(), Ascending(peers) + [id], values);
      hide *;
      return SelectQuorum(values, (|peers| + 1) / 2 + 1);
    }

    /** Appends a command and sends it to every peer that has been sent all before it. */
    method Propose(command: Option<Command>) returns (index: Index)
      requires role.Leader? && id !in peers && log.Valid()
      requires log.log.term > 0 && log.log.vote == Some(id)
      requires role.progress.Keys == peers && ProgressAllOk(role.progress, |log.log.entries|)
      modifies this, log
      ensures Does(ProposeAs(old(Value()), command), old(tx)) && index == |log.log.entries|
    {
      ghost var n := Value();
      index := log.Append(command);
      ProposeFacts(n, command);
      hide Ascending, Proposing, ProposeAs, AppendCommand, WellFormed, LogStore.Valid, Sent;
      SendToPeers(index);
    }

    /** Sends to each peer in steady state. */
    method SendToPeers(index: Index)
      requires log.Valid() && Appended(Value()) && index == |log.log.entries|
      modifies this
      ensures Does(Proposing(old(Value()), peers), old(tx))
    {
      ghost var m := Value();
      var order := InOrder(peers);
      ProposingNone(m);
      FirstAll(order, peers);
      hide FirstOf, InAscending, Proposing, RaftNode.Valid, RaftNode.MaybeSendAppend, LogStore.Valid, Sent;
      for k := 0 to |order|
        invariant Does(Proposing(m, FirstOf(order, k)), old(tx))
      {
        FirstOne(order, peers, k);
        SendIfSteady(index, order[k], m, FirstOf(order, k), old(tx));
      }
    }

    method SendIfSteady(index: Index, peer: NodeID, ghost m: Node, ghost done: set<NodeID>, ghost before: seq<Envelope>)
      requires Appended(m) && m.peers == peers && index == |m.log.entries| && peer in peers && peer !in done
      requires Does(Proposing(m, done), before)
      modifies this
      ensures Does(Proposing(m, done + {peer}), before)
    {
      ProposingOne(m, done, peer);
      hide Proposing, RaftNode.Valid, RaftNode.MaybeSendAppend, LogStore.Valid, Sent;
      if index == role.progress[peer].nextIndex { MaybeSendAppend(peer, false); }
    }

    method SendHeartbeat()
      requires Valid() && role.Leader?
      modifies this
      ensures Does(RaftNode.SendHeartbeat(old(Value())), old(tx))
    {
      role := role.(sinceHeartbeat := 0);
      SendAll(Heartbeat(log.lastIndex, log.commitIndex, role.readSeq));
    }

    /** Aborts every request that is waiting. */
    method AbortPending()
      requires log.Valid() && role.Leader?
      modifies this`tx
      ensures Sent(tx) == Sent(old(tx)) + AbortedWrites(Value()) + AbortedReads(Value())
      ensures |tx| == |old(tx)| + |role.writes| + |role.readQueue| && old(tx) <= tx
    {
      ghost var n := Value();
      AbortWrites();
      hide Sent, AbortedWrites;
      for k := 0 to |role.readQueue|
        invariant Sent(tx) == Sent(old(tx)) + AbortedWrites(n) +
            set j | 0 <= j < k :: Respond(n, n.role.readQueue[j].from, n.role.readQueue[j].id, Abort)
        invariant |tx| == |old(tx)| + |role.writes| + k && old(tx) <= tx
      {
        RespondTo(role.readQueue[k].from, role.readQueue[k].id, Abort);
      }
    }

    method AbortWrites()
      requires log.Valid() && role.Leader?
      modifies this`tx
      ensures Sent(tx) == Sent(old(tx)) + AbortedWrites(Value())
      ensures |tx| == |old(tx)| + |role.writes| && old(tx) <= tx
    {
      ghost var n := Value();
      var order := InOrder(role.writes.Keys);
      FirstAll(order, n.role.writes.Keys);
      OrderSize(order, n.role.writes.Keys);
      AbortedFew(n);
      hide InAscending, FirstOf, AbortedWrites, AbortedSome, LogStore.Valid, Sent;
      for k := 0 to |order|
        invariant Sent(tx) == Sent(old(tx)) + AbortedSome(n, FirstOf(order, k))
        invariant |tx| == |old(tx)| + k && old(tx) <= tx
      {
        FirstOne(order, n.role.writes.Keys, k);
        AbortWrite(order[k], FirstOf(order, k), old(tx));
      }
    }

    method AbortWrite(index: Index, ghost done: set<Index>, ghost before: seq<Envelope>)
      requires log.Valid() && role.Leader? && index in role.writes
      requires Sent(tx) == Sent(before) + AbortedSome(Value(), done)
      modifies this`tx
      ensures Sent(tx) == Sent(before) + AbortedSome(Value(), done + {index})
      ensures |tx| == |old(tx)| + 1 && old(tx) <= tx
    {
      AbortedOne(Value(), done, index);
      hide AbortedSome, LogStore.Valid, Sent;
      RespondTo(role.writes[index].from, role.writes[index].id, Abort);
    }

    method LeaderNewTerm(term: Term, timeout: nat)
      requires Valid() && role.Leader? && term > log.log.term
      modifies this, log
      ensures Does(RaftNode.LeaderNewTerm(old(Value()), term, timeout), old(tx))
    {
      hide Sent;
      AbortPending();
      log.SetTermAndVote(term, None);
      role := Follower(None, 0, timeout, {});
    }

    /** The election is won: a noop is proposed and leadership asserted. */
    method IntoLeader()
      requires Valid() && role.Candidate?
      modifies this, log
      ensures Does(RaftNode.IntoLeader(old(Value())), old(tx))
    {
      hide Promote, RaftNode.MaybeCommitAndApply, RaftNode.SendHeartbeat, RaftNode.Valid, Sent;
      Promoted();
      MaybeCommitAndApply();
      SendHeartbeat();
    }

    method Promoted()
      requires Valid() && role.Candidate?
      modifies this, log
      ensures Valid() && Does(Promote(old(Value())), old(tx))
    {
      var next := log.lastIndex + 1;
      role := Leader(map p | p in peers :: Progress(0, next, 0), map[], [], 0, 0);
      hide ProposeAs, Sent;
      var _ := Propose(None);
    }

    method ElectItself(timeout: nat)
      requires Valid() && role.Follower? && tx == []
      modifies this, log
      ensures var c := RaftNode.IntoCandidate(old(Value()), timeout);
              var l := RaftNode.IntoLeader(c.node);
              Does(Effect(l.node, c.out + l.out, None), [])
    {
      hide RaftNode.IntoCandidate, RaftNode.IntoLeader, RaftNode.Valid, Sent;
      IntoCandidate(timeout);
      IntoLeader();
    }

    method CandidateStep(e: Envelope, timeout: nat) returns (panic: Option<Panic>)
      requires Valid() && role.Candidate? && e.term == log.log.term
      modifies this, log
      ensures Does(RaftNode.CandidateStep(old(Value()), e, timeout), old(tx))
      ensures panic == RaftNode.CandidateStep(old(Value()), e, timeout).panic
    {
      panic := None;
      hide RaftNode.IntoLeader, RaftNode.CandidateLost, RaftNode.Valid, LogStore.Valid, Sent;
      match e.message
      case CampaignResponse(vote) => if vote { CandidateVote(e); }
      case Campaign(_, _) => Send(e.from, CampaignResponse(false));
      case Heartbeat(_, _, _) => panic := CandidateLost(e, timeout);
      case Append(_, _, _) => panic := CandidateLost(e, timeout);
      case ReadConfirm(_) => panic := CandidateLost(e, timeout);
      case ClientRequest(id, _) => RespondTo(e.from, id, Abort);
      case _ => panic := Some(UnexpectedMessage);
    }

    /** A vote that completes a quorum wins the election. */
    method CandidateVote(e: Envelope)
      requires Valid() && role.Candidate? && e.term == log.log.term && e.message == CampaignResponse(true)
      modifies this, log
      ensures forall timeout :: Does(RaftNode.CandidateStep(old(Value()), e, timeout), old(tx))
    {
      hide RaftNode.IntoLeader, Sent;
      role := role.(votes := role.votes + {e.from});
      if |role.votes| >= (|peers| + 1) / 2 + 1 { IntoLeader(); }
    }

    method CandidateLost(e: Envelope, timeout: nat) returns (panic: Option<Panic>)
      requires Valid() && role.Candidate? && e.term == log.log.term
      modifies this, log
      ensures Does(RaftNode.CandidateLost(old(Value()), e, timeout), old(tx))
      ensures panic == RaftNode.CandidateLost(old(Value()), e, timeout).panic
    {
      if e.from !in peers { return Some(LeaderNotPeer); }
      role := Follower(Some(e.from), 0, timeout, {});
      hide RaftNode.FollowerStep, Sent;
      panic := FollowerStep(e);
    }

    /** A peer confirmed a read sequence number. */
    method LeaderConfirm(peer: NodeID, readSeq: nat)
      requires Valid() && role.Leader? && peer in peers
      modifies this
      ensures Does(RaftNode.LeaderConfirm(old(Value()), peer, readSeq), old(tx))
    {
      hide RaftNode.MaybeRead, Sent;
      var progress := role.progress[peer];
      if readSeq <= progress.readSeq { return; }
      role := role.(progress := role.progress[peer := progress.(readSeq := readSeq)]);
      MaybeRead();
    }

    /** A peer's log matches ours up to an index. */
    method LeaderMatch(peer: NodeID, matchIndex: Index)
      requires Valid() && role.Leader? && peer in peers && matchIndex <= |log.log.entries|
      modifies this, log
      ensures Does(RaftNode.LeaderMatch(old(Value()), peer, matchIndex), old(tx))
    {
      hide RaftNode.MaybeCommitAndApply, Sent;
      var progress := role.progress[peer];
      if matchIndex <= progress.matchIndex { return; }
      role := role.(progress := role.progress[peer := progress.(matchIndex := matchIndex,
          nextIndex := Max(progress.nextIndex, matchIndex + 1))]);
      MaybeCommitAndApply();
    }

    /** Moves a peer's next index back and probes below it. */
    method LeaderProbe(peer: NodeID, nextIndex: Index, force: bool)
      requires Valid() && role.Leader? && peer in peers && nextIndex <= |log.log.entries|
      modifies this
      ensures Does(RaftNode.LeaderProbe(old(Value()), peer, nextIndex, force), old(tx))
    {
      hide RaftNode.MaybeSendAppend, Sent;
      var progress := role.progress[peer];
      var moved := !(nextIndex >= progress.nextIndex || progress.nextIndex <= progress.matchIndex + 1);
      if moved {
        role := role.(progress := role.progress[peer := progress.(nextIndex := Max(nextIndex, progress.matchIndex +
            1))]);
      }
      if moved || force { MaybeSendAppend(peer, true); }
    }

    method LeaderHeartbeatResponse(e: Envelope) returns (panic: Option<Panic>)
      requires Valid() && role.Leader? && e.message.HeartbeatResponse?
      modifies this, log
      ensures Does(RaftNode.LeaderHeartbeatResponse(old(Value()), e), old(tx))
      ensures panic == RaftNode.LeaderHeartbeatResponse(old(Value()), e).panic
    {
      hide RaftNode.LeaderConfirm, RaftNode.LeaderProbe, RaftNode.LeaderMatch, Sent;
      var m, lastIndex := e.message, log.lastIndex;
      if m.hbMatchIndex > lastIndex { return Some(FutureMatchIndex); }
      if m.hbConfirmSeq > role.readSeq { return Some(FutureReadSeq); }
      if e.from !in peers { return Some(UnknownNode); }
      LeaderConfirm(e.from, m.hbConfirmSeq);
      if m.hbMatchIndex == 0 { LeaderProbe(e.from, lastIndex, true); }
      LeaderMatch(e.from, m.hbMatchIndex);
      return None;
    }

    method LeaderAppendResponse(e: Envelope) returns (panic: Option<Panic>)
      requires Valid() && role.Leader? && e.message.AppendResponse?
      modifies this, log
      ensures Does(RaftNode.LeaderAppendResponse(old(Value()), e), old(tx))
      ensures panic == RaftNode.LeaderAppendResponse(old(Value()), e).panic
    {
      hide RaftNode.LeaderProbe, RaftNode.LeaderMatch, RaftNode.MaybeSendAppend, Sent;
      var m := e.message;
      if m.rejectIndex == 0 && m.matchIndex > 0 {
        if m.matchIndex > log.lastIndex { return Some(FutureMatchIndex); }
        if e.from !in peers { return Some(UnknownNode); }
        LeaderMatch(e.from, m.matchIndex);
        MaybeSendAppend(e.from, false);
        return None;
      }
      if m.matchIndex == 0 && m.rejectIndex > 0 {
        if m.rejectIndex > log.lastIndex { return Some(FutureRejectIndex); }
        if e.from !in peers { return Some(UnknownNode); }
        if m.rejectIndex <= role.progress[e.from].matchIndex { return None; }
        LeaderProbe(e.from, m.rejectIndex, false);
        return None;
      }
      return Some(InvalidAppendResponse);
    }

    method LeaderWrite(from: NodeID, request: RequestID, command: Command)
      requires Valid() && role.Leader?
      modifies this, log
      ensures Does(RaftNode.LeaderWrite(old(Value()), from, request, command), old(tx))
      ensures RaftNode.LeaderWrite(old(Value()), from, request, command).panic.None?
    {
      hide ProposeAs, RaftNode.MaybeCommitAndApply, Sent;
      var index := Propose(Some(command));
      role := role.(writes := role.writes[index := Write(from, request)]);
      if |peers| == 0 { MaybeCommitAndApply(); }
    }

    method LeaderRead(from: NodeID, request: RequestID, command: Command)
      requires Valid() && role.Leader?
      modifies this
      ensures Does(RaftNode.LeaderRead(old(Value()), from, request, command), old(tx))
      ensures RaftNode.LeaderRead(old(Value()), from, request, command).panic.None?
    {
      hide RaftNode.MaybeRead, Sent;
      var q := role.readSeq + 1;
      role := role.(readSeq := q, readQueue := role.readQueue + [Read(q, from, request, command)]);
      SendAll(ReadConfirm(q));
      if |peers| == 0 { MaybeRead(); }
    }

    /** Reports the leader, its term, and how far each node of the cluster has got, itself
        included. */
    method LeaderStatus() returns (status: Response)
      requires Valid() && role.Leader?
      ensures status == Status(Value()) && status.StatusResponse? && status.leader == id && status.term == log.log.term
      ensures status.matchIndex.Keys == peers + {id} && status.matchIndex[id] == |log.log.entries|
      ensures forall p :: p in peers ==> status.matchIndex[p] == role.progress[p].matchIndex <= |log.log.entries|
      ensures status.commitIndex == log.log.commitIndex <= |log.log.entries| && status.appliedIndex == |applied|
    {
      var matches := (map p | p in role.progress :: role.progress[p].matchIndex)[id := log.lastIndex];
      assert forall p :: p in peers ==> ProgressOk(role.progress[p], |log.log.entries|);
      return StatusResponse(id, log.term, matches, log.commitIndex, |applied|);
    }

    method LeaderStep(e: Envelope) returns (panic: Option<Panic>)
      requires Valid() && role.Leader? && e.term == log.log.term
      modifies this, log
      ensures Does(RaftNode.LeaderStep(old(Value()), e), old(tx))
      ensures panic == RaftNode.LeaderStep(old(Value()), e).panic
    {
      hide RaftNode.Valid, RaftNode.LeaderHeartbeatResponse, RaftNode.LeaderAppendResponse,
          RaftNode.LeaderReadConfirmed;
      hide RaftNode.LeaderClientRequest, Sent;
      panic := None;
      match e.message
      case HeartbeatResponse(_, _) => panic := LeaderHeartbeatResponse(e);
      case AppendResponse(_, _) => panic := LeaderAppendResponse(e);
      case ReadConfirmed(_) => panic := LeaderReadConfirmed(e);
      case ClientRequest(_, _) => LeaderClientRequest(e);
      case Campaign(_, _) => Send(e.from, CampaignResponse(false));
      case CampaignResponse(_) =>
      case Heartbeat(_, _, _) => panic := Some(SawOtherLeader);
      case Append(_, _, _) => panic := Some(SawOtherLeader);
      case ReadConfirm(_) => panic := Some(SawOtherLeader);
      case ClientResponse(_, _) => panic := Some(UnexpectedMessage);
    }

    method LeaderReadConfirmed(e: Envelope) returns (panic: Option<Panic>)
      requires Valid() && role.Leader? && e.message.ReadConfirmed?
      modifies this, log
      ensures Does(RaftNode.LeaderReadConfirmed(old(Value()), e), old(tx))
      ensures panic == RaftNode.LeaderReadConfirmed(old(Value()), e).panic
    {
      hide RaftNode.LeaderConfirm, Sent;
      if e.from !in peers { return Some(UnknownNode); }
      LeaderConfirm(e.from, e.message.seqNo);
      return None;
    }

    method LeaderClientRequest(e: Envelope)
      requires Valid() && role.Leader? && e.message.ClientRequest?
      modifies this, log
      ensures Does(RaftNode.LeaderClientRequest(old(Value()), e), old(tx))
      ensures RaftNode.LeaderClientRequest(old(Value()), e).panic.None?
    {
      hide RaftNode.LeaderWrite, RaftNode.LeaderRead, Sent;
      match e.message.request
      case WriteRequest(command) => LeaderWrite(e.from, e.message.id, command);
      case ReadRequest(command) => LeaderRead(e.from, e.message.id, command);
      case StatusRequest =>
        var status := LeaderStatus();
        RespondTo(e.from, e.message.id, status);
    }

    // -------------------------------------------------------------- node

    /** Processes an inbound message. */
    method Step(e: Envelope, timeout: nat) returns (panic: Option<Panic>)
      requires Valid() && !role.Halted?
      modifies this, log
      ensures Does(RaftNode.Step(old(Value()), e, timeout), old(tx))
      ensures panic == RaftNode.Step(old(Value()), e, timeout).panic
    {
      hide RaftNode.FollowerStep, RaftNode.CandidateStep, RaftNode.LeaderStep, Sent;
      hide RaftNode.FollowerNewTerm, RaftNode.CandidateNewTerm, RaftNode.LeaderNewTerm;
      if e.term < log.term { return None; }
      if e.term > log.term {
        match role {
          case Follower(_, _, _, _) => FollowerNewTerm(e.term, timeout);
          case Candidate(_, _, _) => CandidateNewTerm(e.term, timeout);
          case Leader(_, _, _, _, _) => LeaderNewTerm(e.term, timeout);
        }
        panic := FollowerStep(e);
      } else {
        match role
        case Follower(_, _, _, _) => panic := FollowerStep(e);
        case Candidate(_, _, _) => panic := CandidateStep(e, timeout);
        case Leader(_, _, _, _, _) => panic := LeaderStep(e);
      }
    }

    /** Advances the logical clock. */
    method Tick(timeout: nat)
      requires Valid() && !role.Halted?
      modifies this, log
      ensures Does(RaftNode.Tick(old(Value()), timeout), old(tx))
    {
      hide RaftNode.IntoCandidate, RaftNode.StartCampaign, RaftNode.SendHeartbeat, Sent;
      match role
      case Follower(_, _, _, _) =>
        role := role.(leaderSeen := role.leaderSeen + 1);
        if role.leaderSeen >= role.electionTimeout { IntoCandidate(timeout); }
      case Candidate(_, _, _) =>
        role := role.(electionDuration := role.electionDuration + 1);
        if role.electionDuration >= role.electionTimeout { StartCampaign(timeout); }
      case Leader(_, _, _, _, _) =>
        role := role.(sinceHeartbeat := role.sinceHeartbeat + 1);
        if role.sinceHeartbeat >= opts.heartbeatInterval { SendHeartbeat(); }
    }
  }

  /** Creates a node. Its own identifier must not be among its peers; a node without peers
      elects itself. */
  method New(id: NodeID, peers: set<NodeID>, log: LogStore, applied: seq<Entry>, opts: Options, timeout: nat)
    returns (node: RawNode?)
    requires log.Valid()
    modifies log
    ensures node == null <==> id in peers
    ensures node != null ==>
              fresh(node) && node.log == log
              && node.Does(NewNode(id, peers, opts, old(log.log), applied, timeout), [])
  {
    if id in peers { return null; }
    node := new RawNode(id, peers, log, applied, opts, timeout);
    hide RaftNode.IntoCandidate, RaftNode.IntoLeader, RaftNode.Valid, Sent;
    if |peers| == 0 { node.ElectItself(timeout); }
  }

  // ---------------------------------------------------------------- what the loops add up to

  lemma PeerFacts(n: Node, peer: NodeID)
    requires RaftNode.Valid(n) && n.role.Leader? && peer in n.peers
    ensures peer in n.role.progress && ProgressOk(n.role.progress[peer], |n.log.entries|)
  {
  }

  lemma NothingToSend(n: Node, peer: NodeID, probe: bool)
    requires RaftNode.Valid(n) && n.role.Leader? && peer in n.peers
    ensures var p := n.role.progress[peer];
            p.matchIndex == |n.log.entries| ||
                (p.nextIndex > |n.log.entries| && !(probe && p.nextIndex > p.matchIndex + 1))
            ==> RaftNode.MaybeSendAppend(n, peer, probe) == Effect(n, {}, None)
  {
    assert n.role.progress[peer := n.role.progress[peer]] == n.role.progress;
  }

  /** What is sent to a peer that is behind, read from the log between two indexes. */
  lemma SendsBatch(n: Node, peer: NodeID, probe: bool, entries: seq<Entry>)
    requires RaftNode.Valid(n) && n.role.Leader? && peer in n.peers
    requires var p := n.role.progress[peer];
             var probing := probe && p.nextIndex > p.matchIndex + 1;
             && p.matchIndex != |n.log.entries| && (p.nextIndex <= |n.log.entries| || probing)
             && entries == if probing then []
                 else Between(n.log.entries, p.nextIndex, p.nextIndex + n.opts.maxAppendEntries - 1)
    ensures var p := n.role.progress[peer];
            var base := p.nextIndex - 1;
            var p' := if entries == [] then p else p.(nextIndex := entries[|entries| - 1].index + 1);
            var role := if entries == [] then n.role else n.role.(progress := n.role.progress[peer := p']);
            RaftNode.MaybeSendAppend(n, peer, probe)
            == Effect(n.(role := role), {Mail(n, peer, Append(base, TermAt(n.log.entries, base), entries))}, None)
  {
    var p := n.role.progress[peer];
    assert ProgressOk(p, |n.log.entries|) && WellFormed(n.log);
    assert n.role.progress[peer := p] == n.role.progress;
    hide RaftNode.Valid;
    BatchAppend(n.log.entries, n.opts, p, probe, entries);
    hide NextAppend, Between;
  }

  lemma BatchAppend(es: seq<Entry>, opts: Options, p: Progress, probe: bool, entries: seq<Entry>)
    requires ProgressOk(p, |es|) && forall k :: 0 <= k < |es| ==> es[k].index == k + 1
    requires var probing := probe && p.nextIndex > p.matchIndex + 1;
             && p.matchIndex != |es| && (p.nextIndex <= |es| || probing)
             && entries == if probing then [] else Between(es, p.nextIndex, p.nextIndex + opts.maxAppendEntries - 1)
    ensures var p' := if entries == [] then p else p.(nextIndex := entries[|entries| - 1].index + 1);
            NextAppend(es, opts, p, probe) == (p', Some(Append(p.nextIndex - 1, TermAt(es, p.nextIndex - 1), entries)))
  {
    var base, probing := p.nextIndex - 1, probe && p.nextIndex > p.matchIndex + 1;
    if !probing {
      BetweenIs(es, base, opts.maxAppendEntries);
      hide Between;
      assert entries != [] ==> entries[|entries| - 1] == es[base + |entries| - 1];
    }
  }

  lemma BetweenIs(es: seq<Entry>, base: Index, limit: nat)
    requires base < |es|
    ensures Between(es, base + 1, base + limit) == es[base..Min(|es|, base + limit)]
  {
  }

  // ---------------------------------------------------------------- proposing

  /** A leader that has appended a command may send it. */
  ghost predicate Appended(m: Node) {
    RaftNode.Valid(m) && m.role.Leader?
  }

  /** What proposing has done once the peers in `done` have been looked at. */
  ghost function Proposing(m: Node, done: set<NodeID>): (r: Effect)
    requires Appended(m)
    ensures Appended(r.node) && r.node.peers == m.peers && r.node.log == m.log
  {
    var prog, index := m.role.progress, |m.log.entries|;
    var progress := map p | p in prog ::
      if p in done && prog[p].nextIndex == index then NextAppend(m.log.entries, m.opts, prog[p], false).0 else prog[p];
    var out := set p | p in prog && p in done && prog[p].nextIndex == index
                       && NextAppend(m.log.entries, m.opts, prog[p], false).1.Some?
                 :: Envelope(m.id, m.log.term, p, NextAppend(m.log.entries, m.opts, prog[p], false).1.value);
    Effect(m.(role := m.role.(progress := progress)), out, None)
  }

  ghost function FirstOf(order: seq<nat>, k: nat): set<nat>
    requires k <= |order|
  {
    set i | i in order[..k]
  }

  lemma FirstAll(order: seq<nat>, items: set<nat>)
    requires InAscending(order, items)
    ensures FirstOf(order, 0) == {} && FirstOf(order, |order|) == items
  {
    assert order[..|order|] == order;
  }

  lemma FirstOne(order: seq<nat>, items: set<nat>, k: nat)
    requires InAscending(order, items) && k < |order|
    ensures order[k] in items && order[k] !in FirstOf(order, k)
    ensures FirstOf(order, k + 1) == FirstOf(order, k) + {order[k]}
  {
    assert order[..k + 1] == order[..k] + [order[k]];
  }

  lemma OrderSize(order: seq<nat>, items: set<nat>)
    requires InAscending(order, items)
    ensures |order| == |items|
  {
    FirstAll(order, items);
    hide FirstOf, InAscending;
    for k := 0 to |order|
      invariant |FirstOf(order, k)| == k
    {
      FirstOne(order, items, k);
    }
  }

  lemma ProposeFacts(n: Node, command: Option<Command>)
    requires n.role.Leader? && n.id !in n.peers && WellFormed(n.log)
    requires n.log.term > 0 && n.log.vote == Some(n.id)
    requires n.role.progress.Keys == n.peers && ProgressAllOk(n.role.progress, |n.log.entries|)
    ensures var m := n.(log := AppendCommand(n.log, command));
            Appended(m) && Proposing(m, n.peers) == ProposeAs(n, command)
  {
    var m := n.(log := AppendCommand(n.log, command));
    assert Appended(m);
    assert Proposing(m, n.peers).node.role.progress == ProposeAs(n, command).node.role.progress;
    assert Proposing(m, n.peers).out == ProposeAs(n, command).out;
  }

  lemma ProposingNone(m: Node)
    requires Appended(m)
    ensures Proposing(m, {}) == Effect(m, {}, None)
  {
    assert Proposing(m, {}).node.role.progress == m.role.progress;
  }

  lemma ProposingOne(m: Node, done: set<NodeID>, p: NodeID)
    requires Appended(m) && p in m.peers && p !in done
    ensures var r, r' := Proposing(m, done), Proposing(m, done + {p});
            && p in r.node.role.progress
            && if r.node.role.progress[p].nextIndex == |r.node.log.entries| then
                 var s := RaftNode.MaybeSendAppend(r.node, p, false);
                 r'.node == s.node && r'.out == r.out + s.out
               else r' == r
  {
    var r := Proposing(m, done);
    assert r.node.role.progress[p] == m.role.progress[p];
    if r.node.role.progress[p].nextIndex == |r.node.log.entries| {
      ProposingSent(m, done, p);
    } else {
      ProposingSkipped(m, done, p);
    }
  }

  lemma ProposingSkipped(m: Node, done: set<NodeID>, p: NodeID)
    requires Appended(m) && p in m.peers && m.role.progress[p].nextIndex != |m.log.entries|
    ensures Proposing(m, done + {p}) == Proposing(m, done)
  {
    hide NextAppend, ProgressOk;
    var r, r' := Proposing(m, done), Proposing(m, done + {p});
    assert r'.node.role.progress == r.node.role.progress;
    assert r'.out == r.out;
  }

  lemma ProposingSent(m: Node, done: set<NodeID>, p: NodeID)
    requires Appended(m) && p in m.peers && p !in done && m.role.progress[p].nextIndex == |m.log.entries|
    ensures var r, r' := Proposing(m, done), Proposing(m, done + {p});
            var s := RaftNode.MaybeSendAppend(r.node, p, false);
            r'.node == s.node && r'.out == r.out + s.out
  {
    var r, r' := Proposing(m, done), Proposing(m, done + {p});
    var s := RaftNode.MaybeSendAppend(r.node, p, false);
    hide NextAppend, ProgressOk;
    assert r'.node.role.progress == s.node.role.progress;
    assert r'.out == r.out + s.out;
  }

  lemma IndexQuorum(n: Node, keys: seq<NodeID>, values: seq<nat>)
    requires RaftNode.Valid(n) && n.role.Leader? && Lists(keys, values, MatchIndexes(n))
    ensures 0 < QuorumSize(n) == (|n.peers| + 1) / 2 + 1 <= |values|
    ensures SelectQuorum(values, QuorumSize(n)) == QuorumIndex(n)
  {
    ClusterMapSize(n);
    hide Lists, SelectQuorum, RaftNode.Valid, MatchIndexes;
    SelectIsQuorumValue(keys, values, MatchIndexes(n), QuorumSize(n));
  }

  lemma ReadQuorum(n: Node, keys: seq<NodeID>, values: seq<nat>)
    requires RaftNode.Valid(n) && n.role.Leader? && Lists(keys, values, ReadSeqs(n))
    requires n.role.readQueue != [] && !(n.log.commitTerm < n.log.term || |n.applied| < n.log.commitIndex)
    ensures 0 < QuorumSize(n) == (|n.peers| + 1) / 2 + 1 <= |values|
    ensures var k := ReadyReads(n.role.readQueue, SelectQuorum(values, QuorumSize(n)));
            RaftNode.MaybeRead(n) == Effect(n.(role := n.role.(readQueue := n.role.readQueue[k..])), ReadAnswers(n, k),
                None)
  {
    ClusterMapSize(n);
    hide Lists, SelectQuorum, RaftNode.Valid, ReadSeqs, ReadyReads;
    SelectIsQuorumValue(keys, values, ReadSeqs(n), QuorumSize(n));
  }

  lemma NothingToRead(n: Node)
    requires RaftNode.Valid(n) && n.role.Leader?
    ensures n.role.readQueue == [] || n.log.commitTerm < n.log.term || |n.applied| < n.log.commitIndex
            ==> RaftNode.MaybeRead(n) == Effect(n, {}, None)
  {
  }

  lemma NoAnswers(n: Node)
    requires n.role.Leader?
    ensures ReadAnswers(n, 0) == {}
  {
  }

  ghost function AbortedWrites(n: Node): set<Envelope>
    requires n.role.Leader?
  {
    set i | i in n.role.writes :: Respond(n, n.role.writes[i].from, n.role.writes[i].id, Abort)
  }

  ghost function AbortedSome(n: Node, done: set<Index>): set<Envelope>
    requires n.role.Leader?
  {
    set i | i in n.role.writes && i in done :: Respond(n, n.role.writes[i].from, n.role.writes[i].id, Abort)
  }

  lemma AbortedFew(n: Node)
    requires n.role.Leader?
    ensures AbortedSome(n, {}) == {} && AbortedSome(n, n.role.writes.Keys) == AbortedWrites(n)
  {
  }

  lemma AbortedOne(n: Node, done: set<Index>, i: Index)
    requires n.role.Leader? && i in n.role.writes
    ensures AbortedSome(n, done + {i})
         == AbortedSome(n, done) + {Respond(n, n.role.writes[i].from, n.role.writes[i].id, Abort)}
  {
  }

  ghost function AbortedReads(n: Node): set<Envelope>
    requires n.role.Leader?
  {
    set j | 0 <= j < |n.role.readQueue| :: Respond(n, n.role.readQueue[j].from, n.role.readQueue[j].id, Abort)
  }

  lemma AnswersOne(n: Node, j: nat)
    requires n.role.Leader? && j < |n.role.readQueue|
    ensures var read := n.role.readQueue[j];
            ReadAnswers(n, j + 1) == ReadAnswers(n, j) +
                {Respond(n, read.from, read.id, ReadResponse(n.applied, read.command))}
  {
  }

  lemma ListsCluster(order: seq<NodeID>, id: NodeID, values: seq<nat>, m: map<NodeID, nat>)
    requires id !in order && forall i, j :: 0 <= i < j < |order| ==> order[i] < order[j]
    requires forall p :: p in m <==> p in order || p == id
    requires |values| == |order| + 1 && m[id] == values[|order|]
    requires forall i :: 0 <= i < |order| ==> m[order[i]] == values[i]
    ensures Lists(order + [id], values, m)
  {
  }

  /** The writes outside a range of indexes. */
  function Waiting(writes: map<Index, Write>, lo: Index, hi: Index): map<Index, Write> {
    map i | i in writes && !(lo < i <= hi) :: writes[i]
  }

  lemma CommitFacts(n: Node, k: Index)
    requires RaftNode.Valid(n) && n.role.Leader? && n.log.commitIndex < k <= |n.log.entries|
    ensures var r := RaftNode.CommitAndApply(n, k);
            var entries := if |n.applied| >= k then [] else n.log.entries[|n.applied|..k];
            && r.node == n.(log := Commit(n.log, k), applied := n.applied + entries,
                            role := n.role.(writes := Waiting(n.role.writes, |n.applied|, |n.applied + entries|)))
            && r.out == WriteResponses(n, n.applied + entries, |n.applied|)
            && forall j :: 0 <= j < |entries| ==> entries[j].index == |n.applied| + j + 1
  {
  }

  lemma NoneAnswered(n: Node, tx: seq<Envelope>)
    requires n.role.Leader?
    ensures Answering(n, tx, n.applied, tx) && Waiting(n.role.writes, |n.applied|, |n.applied|) == n.role.writes
  {
    assert WriteResponses(n, n.applied, |n.applied|) == {};
    assert Waiting(n.role.writes, |n.applied|, |n.applied|) == n.role.writes;
  }

  lemma AllAnswered(n: Node, before: seq<Envelope>, applied: seq<Entry>, tx: seq<Envelope>)
    requires Answering(n, before, applied, tx)
    ensures before <= tx && Sent(tx) == Sent(before) + WriteResponses(n, applied, |n.applied|)
    ensures |tx| + |Waiting(n.role.writes, |n.applied|, |applied|)| == |before| + |n.role.writes|
  {
  }

  /** The answer to the write that waits for an entry. */
  function AnswerTo(id: NodeID, term: Term, writes: map<Index, Write>, index: Index, state: seq<Entry>): seq<Envelope> {
    if index in writes then
      [Envelope(id, term, writes[index].from, ClientResponse(writes[index].id, WriteResponse(state)))]
    else []
  }

  /** Entries have been applied, and the writes among them answered once each. */
  ghost predicate Answering(n: Node, before: seq<Envelope>, applied: seq<Entry>, tx: seq<Envelope>) {
    && n.role.Leader? && |n.applied| <= |applied| && before <= tx
    && Sent(tx) == Sent(before) + WriteResponses(n, applied, |n.applied|)
    && |tx| + |Waiting(n.role.writes, |n.applied|, |applied|)| == |before| + |n.role.writes|
  }

  lemma NextAnswer(n: Node, before: seq<Envelope>, applied: seq<Entry>, tx: seq<Envelope>, entry: Entry)
    requires Answering(n, before, applied, tx) && entry.index == |applied| + 1
    ensures var waiting := Waiting(n.role.writes, |n.applied|, |applied|);
            && Waiting(n.role.writes, |n.applied|, |applied| + 1) == waiting - {entry.index}
            && var next := applied + [entry];
            Answering(n, before, next, tx + AnswerTo(n.id, n.log.term, waiting, entry.index, next))
  {
    var waiting := Waiting(n.role.writes, |n.applied|, |applied|);
    var answer := AnswerTo(n.id, n.log.term, waiting, entry.index, applied + [entry]);
    ResponsesOne(n, applied, entry);
    AnswerSize(n.id, n.log.term, waiting, entry.index, applied + [entry]);
    hide Sent, WriteResponses, Waiting, AnswerTo;
    SentMore(tx, answer);
    SetsOn(Sent(before), WriteResponses(n, applied, |n.applied|), Sent(answer));
  }

  lemma AnswerSize(id: NodeID, term: Term, writes: map<Index, Write>, index: Index, state: seq<Entry>)
    ensures |AnswerTo(id, term, writes, index, state)| + |writes - {index}| == |writes|
  {
    if index !in writes { assert writes - {index} == writes; }
  }

  lemma SetsOn<T>(a: set<T>, b: set<T>, c: set<T>)
    ensures a + b + c == a + (b + c)
  {
  }

  lemma SentMore(tx: seq<Envelope>, more: seq<Envelope>)
    ensures Sent(tx + more) == Sent(tx) + Sent(more)
  {
  }

  lemma ResponsesOne(n: Node, applied: seq<Entry>, entry: Entry)
    requires n.role.Leader? && |n.applied| <= |applied| && entry.index == |applied| + 1
    ensures var waiting := Waiting(n.role.writes, |n.applied|, |applied|);
            && Waiting(n.role.writes, |n.applied|, |applied| + 1) == waiting - {entry.index}
            && WriteResponses(n, applied + [entry], |n.applied|)
               == WriteResponses(n, applied, |n.applied|)
                  + Sent(AnswerTo(n.id, n.log.term, waiting, entry.index, applied + [entry]))
  {
    var next := applied + [entry];
    assert next[..|next|] == next;
    forall i | 0 <= i <= |applied| ensures next[..i] == applied[..i] {}
  }
}
