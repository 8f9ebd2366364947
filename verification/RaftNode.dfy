/** The Raft node (src/raft/node.rs) as a state transformer: each handler maps a node and an
    inbound message to the new node, the envelopes it sends and, where the source asserts
    something it cannot check locally, the panic that stops it. Assertions that hold locally
    are `requires` clauses, proved at every call. Random timeouts are parameters. */
module RaftNode {
  import opened Basics
  import opened RaftMessage
  import opened RaftLog

  datatype Options = Options(heartbeatInterval: nat, maxAppendEntries: nat)

  datatype Progress = Progress(matchIndex: Index, nextIndex: Index, readSeq: nat)

  datatype Write = Write(from: NodeID, id: RequestID)

  datatype Read = Read(seqNo: nat, from: NodeID, id: RequestID, command: Command)

  datatype Role =
    | Follower(leader: Option<NodeID>, leaderSeen: nat, electionTimeout: nat, forwarded: set<RequestID>)
    | Candidate(votes: set<NodeID>, electionDuration: nat, electionTimeout: nat)
    | Leader(
        progress: map<NodeID, Progress>,
        writes: map<Index, Write>,
        readQueue: seq<Read>,
        readSeq: nat,
        sinceHeartbeat: nat)
    | Halted

  /** `applied` is the state machine: the entries applied so far. */
  datatype Node = Node(
    id: NodeID,
    peers: set<NodeID>,
    opts: Options,
    log: LogState,
    applied: seq<Entry>,
    role: Role)

  datatype Panic =
    | CommitAfterLast
    | BaseIndexMismatch
    | MultipleLeaders
    | SawOtherLeader
    | LeaderNotPeer
    | TermZero
    | SpliceFailed(why: SplicePanic)
    | FutureMatchIndex
    | FutureReadSeq
    | FutureRejectIndex
    | InvalidAppendResponse
    | UnknownNode
    | UnexpectedMessage
    | ForeignClientRequest
    | ForeignClientResponse

  datatype Effect = Effect(node: Node, out: set<Envelope>, panic: Option<Panic>)

  // ---------------------------------------------------------------- local invariant

  /** `next_index` stays within [match_index + 1, last_index + 1]. */
  predicate ProgressOk(p: Progress, lastIndex: Index) {
    p.matchIndex < p.nextIndex <= lastIndex + 1
  }

  predicate ProgressAllOk(m: map<NodeID, Progress>, lastIndex: Index) {
    forall p :: p in m ==> ProgressOk(m[p], lastIndex)
  }

  ghost predicate RoleOk(n: Node) {
    match n.role
    case Follower(leader, _, _, forwarded) =>
      && (leader.Some? ==> n.log.term > 0 && leader.value in n.peers)
      && (forwarded != {} ==> leader.Some?)
    case Candidate(votes, _, _) =>
      && n.log.term > 0
      && n.log.vote == Some(n.id)
      && n.id in votes
    case Leader(progress, _, _, _, _) =>
      && n.log.term > 0
      && n.log.vote == Some(n.id)
      && LastTerm(n.log.entries) == n.log.term
      && progress.Keys == n.peers
      && ProgressAllOk(progress, |n.log.entries|)
    case Halted => true
  }

  /** What every handler may assume of its own node, and keeps. */
  ghost predicate Valid(n: Node) {
    && n.id !in n.peers
    && WellFormed(n.log)
    && RoleOk(n)
  }

  /** The node keeps its identity and its term. */
  predicate Kept(n: Node, m: Node) {
    m.id == n.id && m.peers == n.peers && m.opts == n.opts && m.log.term == n.log.term
  }

  // ---------------------------------------------------------------- helpers

  function QuorumSize(n: Node): nat {
    (|n.peers| + 1) / 2 + 1
  }

  /** At least `quorum` keys have a value of at least `v`. */
  ghost predicate Reached(values: map<NodeID, nat>, quorum: nat, v: nat) {
    |ReachedBy(values, v)| >= quorum
  }

  function ReachedBy(values: map<NodeID, nat>, v: nat): set<NodeID> {
    set p | p in values && values[p] >= v
  }

  /** The greatest value that a quorum reaches. */
  ghost predicate IsQuorumValue(values: map<NodeID, nat>, quorum: nat, v: nat) {
    Reached(values, quorum, v) && !Reached(values, quorum, v + 1)
  }

  ghost function QuorumValue(values: map<NodeID, nat>, quorum: nat): (v: nat)
    requires 0 < quorum <= |values|
    ensures IsQuorumValue(values, quorum, v)
  {
    QuorumValueExists(values, quorum);
    var v :| IsQuorumValue(values, quorum, v);
    v
  }

  lemma QuorumValueExists(values: map<NodeID, nat>, quorum: nat)
    requires 0 < quorum <= |values|
    ensures exists v :: IsQuorumValue(values, quorum, v)
  {
    assert ReachedBy(values, 0) == values.Keys;
    var hi := MapBound(values);
    assert ReachedBy(values, hi + 1) == {};
    var v := 0;
    while !IsQuorumValue(values, quorum, v)
      invariant v <= hi
      invariant Reached(values, quorum, v)
      decreases hi - v
    {
      v := v + 1;
    }
  }

  lemma {:induction false} MapBound(values: map<NodeID, nat>) returns (hi: nat)
    ensures forall p :: p in values ==> values[p] <= hi
    decreases |values|
  {
    if values == map[] {
      hi := 0;
    } else {
      var p :| p in values;
      var rest := values - {p};
      assert rest.Keys == values.Keys - {p};
      hi := MapBound(rest);
      hi := if values[p] > hi then values[p] else hi;
      forall q | q in values ensures values[q] <= hi {
        if q != p { assert q in rest; }
      }
    }
  }

  lemma QuorumValueUnique(values: map<NodeID, nat>, quorum: nat, v: nat, w: nat)
    requires IsQuorumValue(values, quorum, v) && IsQuorumValue(values, quorum, w)
    ensures v == w
  {
    if v < w { ReachedDown(values, quorum, v + 1, w); }
    if w < v { ReachedDown(values, quorum, w + 1, v); }
  }

  lemma ReachedDown(values: map<NodeID, nat>, quorum: nat, v: nat, w: nat)
    requires v <= w && Reached(values, quorum, w)
    ensures Reached(values, quorum, v)
  {
    SubsetSize(ReachedBy(values, w), ReachedBy(values, v));
  }

  function Mail(n: Node, to: NodeID, m: Message): Envelope {
    Envelope(n.id, n.log.term, to, m)
  }

  function Broadcast(n: Node, m: Message): set<Envelope> {
    set p | p in n.peers :: Envelope(n.id, n.log.term, p, m)
  }

  function Respond(n: Node, to: NodeID, id: RequestID, r: Response): Envelope {
    Envelope(n.id, n.log.term, to, ClientResponse(id, r))
  }

  function AbortAll(n: Node, ids: set<RequestID>): set<Envelope> {
    set id | id in ids :: Envelope(n.id, n.log.term, n.id, ClientResponse(id, Abort))
  }

  /** Applies the committed entries that follow the applied ones. */
  function ApplyCommitted(l: LogState, applied: seq<Entry>): seq<Entry>
    requires l.commitIndex <= |l.entries|
  {
    if |applied| >= l.commitIndex then applied
    else applied + l.entries[|applied|..l.commitIndex]
  }

  // ---------------------------------------------------------------- start and restart

  /** Creates a node from its stored log and state machine. A single-node cluster elects
      itself at once. */
  ghost function NewNode(id: NodeID, peers: set<NodeID>, opts: Options, log: LogState, applied: seq<Entry>,
      timeout: nat): (r: Effect)
    requires id !in peers && WellFormed(log)
    ensures Valid(r.node)
    ensures r.node.id == id && r.node.log.term >= log.term && r.panic.None?
  {
    var n := Node(id, peers, opts, log, ApplyCommitted(log, applied), Follower(None, 0, timeout, {}));
    if |peers| == 0 then
      var c := IntoCandidate(n, timeout);
      var l := IntoLeader(c.node);
      Effect(l.node, c.out + l.out, None)
    else
      Effect(n, {}, None)
  }

  // ---------------------------------------------------------------- follower

  /** Enters a newer term without a known leader. */
  function FollowerNewTerm(n: Node, term: Term, timeout: nat): (r: Effect)
    requires Valid(n) && n.role.Follower? && term > n.log.term
    ensures Valid(r.node) && r.node.role.Follower? && r.node.log.term == term && r.panic.None?
  {
    Effect(n.(log := SetTermVote(n.log, term, None), role := Follower(None, 0, timeout, {})),
           AbortAll(n, n.role.forwarded), None)
  }

  /** Starts a new election: a new term, a vote for ourself, and a request to every peer. */
  function StartCampaign(n: Node, timeout: nat): (r: Effect)
    requires n.id !in n.peers && WellFormed(n.log)
    ensures Valid(r.node) && r.node.role.Candidate? && r.panic.None?
  {
    var n' := n.(log := SetTermVote(n.log, n.log.term + 1, Some(n.id)), role := Candidate({n.id}, 0, timeout));
    Effect(n', Broadcast(n', Campaign(|n'.log.entries|, LastTerm(n'.log.entries))), None)
  }

  function IntoCandidate(n: Node, timeout: nat): (r: Effect)
    requires Valid(n) && n.role.Follower?
    ensures Valid(r.node) && r.node.role.Candidate? && r.panic.None?
  {
    var c := StartCampaign(n.(applied := ApplyCommitted(n.log, n.applied)), timeout);
    Effect(c.node, AbortAll(n, n.role.forwarded) + c.out, None)
  }

  /** A message only the leader sends: it is from our leader, or we follow its sender. */
  function HearLeader(n: Node, from: NodeID): (r: Effect)
    requires Valid(n) && n.role.Follower?
    ensures Valid(r.node) && r.node.role.Follower?
    ensures r.panic.None? ==> r.node.role.leader == Some(from)
    ensures r.node.log == n.log && r.node.applied == n.applied
  {
    if n.role.leader.Some? then
      Effect(n, {}, if n.role.leader.value == from then None else Some(MultipleLeaders))
    else if n.log.term == 0 then Effect(n, {}, Some(TermZero))
    else
      // No request is forwarded while there is no leader.
      if from !in n.peers then Effect(n, {}, Some(LeaderNotPeer))
      else Effect(n.(role := Follower(Some(from), 0, n.role.electionTimeout, {})), {}, None)
  }

  function FollowerHeartbeat(n: Node, e: Envelope): (r: Effect)
    requires Valid(n) && n.role.Follower? && e.message.Heartbeat?
    ensures Valid(r.node) && r.node.role.Follower?
    ensures Kept(n, r.node)
  {
    var m := e.message;
    if m.hbCommitIndex > m.hbLastIndex then Effect(n, {}, Some(CommitAfterLast))
    else
      var h := HearLeader(n, e.from);
      if h.panic.Some? then h
      else
        var matched := if Has(h.node.log.entries, m.hbLastIndex, e.term) then m.hbLastIndex else 0;
        var out := {Mail(h.node, e.from, HeartbeatResponse(matched, m.hbReadSeq))};
        if matched != 0 && m.hbCommitIndex > h.node.log.commitIndex then
          var log := Commit(h.node.log, m.hbCommitIndex);
          Effect(h.node.(log := log, applied := ApplyCommitted(log, h.node.applied)), out, None)
        else Effect(h.node, out, None)
  }

  ghost function FollowerAppend(n: Node, e: Envelope): (r: Effect)
    requires Valid(n) && n.role.Follower? && e.message.Append?
    ensures Valid(r.node) && r.node.role.Follower?
    ensures Kept(n, r.node)
  {
    var m := e.message;
    if m.entries != [] && m.entries[0].index != m.baseIndex + 1 then Effect(n, {}, Some(BaseIndexMismatch))
    else
      var h := HearLeader(n, e.from);
      if h.panic.Some? then h
      else if m.baseIndex == 0 || Has(n.log.entries, m.baseIndex, m.baseTerm) then
        var fault := SpliceFault(n.log, m.entries);
        if fault.Some? then h.(panic := Some(SpliceFailed(fault.value)))
        else
          var matched := if m.entries == [] then m.baseIndex else m.entries[|m.entries| - 1].index;
          Effect(h.node.(log := Splice(n.log, m.entries)), {Mail(n, e.from, AppendResponse(matched, 0))}, None)
      else
        Effect(h.node, {Mail(n, e.from, AppendResponse(0, Min(m.baseIndex, |n.log.entries| + 1)))}, None)
  }

  function FollowerRead(n: Node, e: Envelope): (r: Effect)
    requires Valid(n) && n.role.Follower? && e.message.ReadConfirm?
    ensures Valid(r.node) && r.node.role.Follower?
    ensures Kept(n, r.node)
  {
    var h := HearLeader(n, e.from);
    if h.panic.Some? then h
    else Effect(h.node, {Mail(n, e.from, ReadConfirmed(e.message.seqNo))}, None)
  }

  /** The candidate's log (last index and term) is at least as up to date as ours. */
  predicate UpToDate(lastIndex: Index, lastTerm: Term, es: seq<Entry>) {
    LastTerm(es) < lastTerm || (LastTerm(es) == lastTerm && |es| <= lastIndex)
  }

  function FollowerCampaign(n: Node, e: Envelope): (r: Effect)
    requires Valid(n) && n.role.Follower? && e.message.Campaign? && e.term == n.log.term
    ensures Valid(r.node) && r.node.role.Follower?
    ensures Kept(n, r.node)
  {
    var m := e.message;
    if n.log.vote.Some? && n.log.vote.value != e.from then
      Effect(n, {Mail(n, e.from, CampaignResponse(false))}, None)
    else if !UpToDate(m.lastIndex, m.lastTerm, n.log.entries) then
      Effect(n, {Mail(n, e.from, CampaignResponse(false))}, None)
    else if e.term == 0 then Effect(n, {}, Some(TermZero))
    else
      Effect(n.(log := SetTermVote(n.log, e.term, Some(e.from))), {Mail(n, e.from, CampaignResponse(true))}, None)
  }

  function FollowerClientRequest(n: Node, e: Envelope): (r: Effect)
    requires Valid(n) && n.role.Follower? && e.message.ClientRequest?
    ensures Valid(r.node) && r.node.role.Follower?
    ensures Kept(n, r.node)
  {
    if e.from != n.id then Effect(n, {}, Some(ForeignClientRequest))
    else if n.role.leader.Some? then
      Effect(n.(role := n.role.(forwarded := n.role.forwarded + {e.message.id})),
             {Mail(n, n.role.leader.value, e.message)}, None)
    else Effect(n, {Respond(n, e.from, e.message.id, Abort)}, None)
  }

  function FollowerClientResponse(n: Node, e: Envelope): (r: Effect)
    requires Valid(n) && n.role.Follower? && e.message.ClientResponse?
    ensures Valid(r.node) && r.node.role.Follower?
    ensures Kept(n, r.node)
  {
    if n.role.leader != Some(e.from) then Effect(n, {}, Some(ForeignClientResponse))
    else if e.message.id in n.role.forwarded then
      Effect(n.(role := n.role.(forwarded := n.role.forwarded - {e.message.id})),
             {Respond(n, n.id, e.message.id, e.message.response)}, None)
    else Effect(n, {}, None)
  }

  /** A message in the follower's own term. */
  ghost function FollowerStep(n0: Node, e: Envelope): (r: Effect)
    requires Valid(n0) && n0.role.Follower? && e.term == n0.log.term
    ensures Valid(r.node) && r.node.role.Follower?
    ensures Kept(n0, r.node)
  {
    var n := if n0.role.leader == Some(e.from) then n0.(role := n0.role.(leaderSeen := 0)) else n0;
    match e.message
    case Heartbeat(_, _, _) => FollowerHeartbeat(n, e)
    case Append(_, _, _) => FollowerAppend(n, e)
    case ReadConfirm(_) => FollowerRead(n, e)
    case Campaign(_, _) => FollowerCampaign(n, e)
    case ClientRequest(_, _) => FollowerClientRequest(n, e)
    case ClientResponse(_, _) => FollowerClientResponse(n, e)
    case CampaignResponse(_) => Effect(n, {}, None)
    case HeartbeatResponse(_, _) => Effect(n, {}, Some(UnexpectedMessage))
    case AppendResponse(_, _) => Effect(n, {}, Some(UnexpectedMessage))
    case ReadConfirmed(_) => Effect(n, {}, Some(UnexpectedMessage))
  }

  // ---------------------------------------------------------------- candidate

  function CandidateNewTerm(n: Node, term: Term, timeout: nat): (r: Effect)
    requires Valid(n) && n.role.Candidate? && term > n.log.term
    ensures Valid(r.node) && r.node.role.Follower? && r.node.log.term == term && r.panic.None?
  {
    Effect(n.(log := SetTermVote(n.log, term, None), role := Follower(None, 0, timeout, {})), {}, None)
  }

  /** We won: propose a noop, commit if we are alone, and assert leadership. */
  ghost function IntoLeader(n: Node): (r: Effect)
    requires Valid(n) && n.role.Candidate?
    ensures Valid(r.node) && r.node.role.Leader? && r.panic.None?
    ensures Kept(n, r.node)
  {
    var p := Promote(n);
    var c := MaybeCommitAndApply(p.node);
    var h := SendHeartbeat(c.node);
    Effect(h.node, p.out + c.out + h.out, None)
  }

  /** The role change and the noop proposal of an election win. */
  function Promote(n: Node): (r: Effect)
    requires Valid(n) && n.role.Candidate?
    ensures Valid(r.node) && r.node.role.Leader? && r.panic.None?
    ensures Kept(n, r.node)
  {
    var next := |n.log.entries| + 1;
    ProposeAs(n.(role := Leader(map p | p in n.peers :: Progress(0, next, 0), map[], [], 0, 0)), None)
  }

  ghost function CandidateStep(n: Node, e: Envelope, timeout: nat): (r: Effect)
    requires Valid(n) && n.role.Candidate? && e.term == n.log.term
    ensures Valid(r.node)
    ensures Kept(n, r.node)
  {
    match e.message
    case CampaignResponse(vote) =>
      if !vote then Effect(n, {}, None)
      else
        var n' := n.(role := n.role.(votes := n.role.votes + {e.from}));
        if |n'.role.votes| >= QuorumSize(n) then IntoLeader(n') else Effect(n', {}, None)
    case Campaign(_, _) => Effect(n, {Mail(n, e.from, CampaignResponse(false))}, None)
    case Heartbeat(_, _, _) => CandidateLost(n, e, timeout)
    case Append(_, _, _) => CandidateLost(n, e, timeout)
    case ReadConfirm(_) => CandidateLost(n, e, timeout)
    case ClientRequest(id, _) => Effect(n, {Respond(n, e.from, id, Abort)}, None)
    case _ => Effect(n, {}, Some(UnexpectedMessage))
  }

  /** Another node leads this term: follow it and step its message. */
  ghost function CandidateLost(n: Node, e: Envelope, timeout: nat): (r: Effect)
    requires Valid(n) && n.role.Candidate? && e.term == n.log.term
    ensures Valid(r.node)
    ensures Kept(n, r.node)
  {
    if e.from !in n.peers then Effect(n, {}, Some(LeaderNotPeer))
    else FollowerStep(n.(role := Follower(Some(e.from), 0, timeout, {})), e)
  }

  // ---------------------------------------------------------------- leader

  /** Records a longer match; `None` if it does not advance. */
  function Advance(p: Progress, matchIndex: Index): Option<Progress> {
    if matchIndex <= p.matchIndex then None
    else Some(p.(matchIndex := matchIndex, nextIndex := Max(p.nextIndex, matchIndex + 1)))
  }

  function AdvanceRead(p: Progress, readSeq: nat): Option<Progress> {
    if readSeq <= p.readSeq then None else Some(p.(readSeq := readSeq))
  }

  function RegressNext(p: Progress, nextIndex: Index): Option<Progress> {
    if nextIndex >= p.nextIndex || p.nextIndex <= p.matchIndex + 1 then None
    else Some(p.(nextIndex := Max(nextIndex, p.matchIndex + 1)))
  }

  /** What `maybe_send_append` does for one peer: the new progress and the append, if any. */
  function NextAppend(es: seq<Entry>, opts: Options, p: Progress, probeRequested: bool)
    : (r: (Progress, Option<Message>))
    requires ProgressOk(p, |es|)
    ensures ProgressOk(r.0, |es|)
    ensures r.0.matchIndex == p.matchIndex && r.0.readSeq == p.readSeq
  {
    var probe := probeRequested && p.nextIndex > p.matchIndex + 1;
    if p.matchIndex == |es| then (p, None)
    else if p.nextIndex > |es| && !probe then (p, None)
    else
      var base := p.nextIndex - 1;
      var batch := if probe then [] else es[base..Min(|es|, base + opts.maxAppendEntries)];
      (p.(nextIndex := p.nextIndex + |batch|), Some(Append(base, TermAt(es, base), batch)))
  }

  /** What is sent: nothing to a peer that has everything or that all has been sent to, an
      empty probe below the next index, or a batch of entries from it on. */
  lemma NextAppendFacts(es: seq<Entry>, opts: Options, p: Progress, probeRequested: bool)
    requires ProgressOk(p, |es|)
    ensures var (q, m) := NextAppend(es, opts, p, probeRequested);
            var probe, base := probeRequested && p.nextIndex > p.matchIndex + 1, p.nextIndex - 1;
            && (m.None? <==> p.matchIndex == |es| || (p.nextIndex > |es| && !probe))
            && (m.None? ==> q == p)
            && (m.Some? ==>
                  && m.value.Append? && m.value.baseIndex == base && m.value.baseTerm == TermAt(es, base)
                  && base + |m.value.entries| <= |es| && m.value.entries == es[base..base + |m.value.entries|]
                  && q == p.(nextIndex := base + |m.value.entries| + 1)
                  && (m.value.entries == [] <==> probe || opts.maxAppendEntries == 0))
  {
    var probe, base := probeRequested && p.nextIndex > p.matchIndex + 1, p.nextIndex - 1;
    if !probe && base < |es| {
      var top := Min(|es|, base + opts.maxAppendEntries);
      assert |es[base..top]| == top - base;
    }
  }

  function MaybeSendAppend(n: Node, peer: NodeID, probe: bool): (r: Effect)
    requires Valid(n) && n.role.Leader? && peer in n.peers
    ensures Valid(r.node) && r.node.role.Leader? && r.panic.None?
    ensures r.node == n.(role := r.node.role)
  {
    ProgressKept(n, peer);
    hide NextAppend, WellFormed;
    var (p, m) := NextAppend(n.log.entries, n.opts, n.role.progress[peer], probe);
    Effect(SetProgress(n, peer, p), if m.Some? then {Mail(n, peer, m.value)} else {}, None)
  }

  lemma ProgressKept(n: Node, peer: NodeID)
    requires Valid(n) && n.role.Leader? && peer in n.peers
    ensures peer in n.role.progress && ProgressOk(n.role.progress[peer], |n.log.entries|)
    ensures forall p :: ProgressOk(p, |n.log.entries|) ==> Valid(SetProgress(n, peer, p))
  {
    hide WellFormed;
  }

  /** Appends a command to our log and sends it to every peer that has been sent all
      previous entries. The role change of an election win happens first, so this takes a
      node whose last entry need not be of its term yet. */
  function ProposeAs(n: Node, command: Option<Command>): (r: Effect)
    requires n.role.Leader? && n.id !in n.peers && WellFormed(n.log)
    requires n.log.term > 0 && n.log.vote == Some(n.id)
    requires n.role.progress.Keys == n.peers && ProgressAllOk(n.role.progress, |n.log.entries|)
    ensures Valid(r.node) && r.node.role.Leader? && r.panic.None?
    ensures r.node == n.(log := AppendCommand(n.log, command), role := r.node.role)
  {
    var log := AppendCommand(n.log, command);
    var index := |log.entries|;
    var prog := n.role.progress;
    assert ProgressAllOk(prog, index);
    var sent := set p | p in prog && prog[p].nextIndex == index;
    var progress := map p | p in prog :: if p in sent then NextAppend(log.entries, n.opts, prog[p], false).0
        else prog[p];
    var out := set p | p in sent && NextAppend(log.entries, n.opts, prog[p], false).1.Some?
                 :: Envelope(n.id, n.log.term, p, NextAppend(log.entries, n.opts, prog[p], false).1.value);
    Effect(n.(log := log, role := n.role.(progress := progress)), out, None)
  }

  /** Match indexes of the whole cluster, our own being our last index. */
  function MatchIndexes(n: Node): (m: map<NodeID, nat>)
    requires n.role.Leader?
  {
    (map p | p in n.role.progress :: n.role.progress[p].matchIndex)[n.id := |n.log.entries|]
  }

  function ReadSeqs(n: Node): (m: map<NodeID, nat>)
    requires n.role.Leader?
  {
    (map p | p in n.role.progress :: n.role.progress[p].readSeq)[n.id := n.role.readSeq]
  }

  lemma ClusterMapSize(n: Node)
    requires Valid(n) && n.role.Leader?
    ensures |MatchIndexes(n)| == |ReadSeqs(n)| == |n.peers| + 1
    ensures MatchIndexes(n).Keys == ReadSeqs(n).Keys == n.peers + {n.id}
    ensures 0 < QuorumSize(n) <= |n.peers| + 1
  {
    assert MatchIndexes(n).Keys == n.peers + {n.id};
    assert ReadSeqs(n).Keys == n.peers + {n.id};
  }

  /** The index a quorum of the cluster holds. */
  ghost function QuorumIndex(n: Node): (k: Index)
    requires Valid(n) && n.role.Leader?
    ensures IsQuorumValue(MatchIndexes(n), QuorumSize(n), k)
    ensures k <= |n.log.entries|
  {
    ClusterMapSize(n);
    var k := QuorumValue(MatchIndexes(n), QuorumSize(n));
    assert k <= |n.log.entries| by {
      var p :| p in ReachedBy(MatchIndexes(n), k);
    }
    k
  }

  /** Results of newly applied entries go to the clients that wrote them. */
  function WriteResponses(n: Node, state: seq<Entry>, lo: Index): set<Envelope>
    requires n.role.Leader?
  {
    set i | i in n.role.writes && lo < i <= |state|
      :: Envelope(n.id, n.log.term, n.role.writes[i].from,
          ClientResponse(n.role.writes[i].id, WriteResponse(state[..i])))
  }

  /** Commits what a quorum holds, if it is of our own term, and applies it. */
  ghost function MaybeCommitAndApply(n: Node): (r: Effect)
    requires Valid(n) && n.role.Leader?
    ensures Valid(r.node) && r.node.role.Leader? && r.panic.None?
    ensures Kept(n, r.node)
  {
    var k := QuorumIndex(n);
    if k <= n.log.commitIndex || n.log.entries[k - 1].term != n.log.term then Effect(n, {}, None)
    else
      var c := CommitAndApply(n, k);
      if n.log.commitTerm != n.log.term then
        var r := MaybeRead(c.node);
        Effect(r.node, c.out + r.out, None)
      else c
  }

  /** The outcome, by the index a quorum holds. */
  lemma CommitCases(n: Node, k: Index)
    requires Valid(n) && n.role.Leader? && k == QuorumIndex(n)
    ensures var r := MaybeCommitAndApply(n);
            if k <= n.log.commitIndex || n.log.entries[k - 1].term != n.log.term then r == Effect(n, {}, None)
            else
              var c := CommitAndApply(n, k);
              var d := MaybeRead(c.node);
              r == if n.log.commitTerm != n.log.term then Effect(d.node, c.out + d.out, None) else c
  {
    hide Valid, QuorumIndex, CommitAndApply, MaybeRead;
  }

  function CommitAndApply(n: Node, k: Index): (r: Effect)
    requires Valid(n) && n.role.Leader? && n.log.commitIndex < k <= |n.log.entries|
    ensures Valid(r.node) && r.node.role.Leader? && r.panic.None?
    ensures Kept(n, r.node)
  {
    var log := Commit(n.log, k);
    var applied := ApplyCommitted(log, n.applied);
    var writes := map i | i in n.role.writes && !(|n.applied| < i <= |applied|) :: n.role.writes[i];
    Effect(n.(log := log, applied := applied, role := n.role.(writes := writes)),
           WriteResponses(n, applied, |n.applied|), None)
  }

  /** How many queued reads a quorum has confirmed. */
  function ReadyReads(queue: seq<Read>, confirmed: nat): (k: nat)
    ensures k <= |queue|
    ensures forall j :: 0 <= j < k ==> queue[j].seqNo <= confirmed
    ensures k < |queue| ==> queue[k].seqNo > confirmed
    decreases |queue|
  {
    if queue == [] || queue[0].seqNo > confirmed then 0
    else 1 + ReadyReads(queue[1..], confirmed)
  }

  /** Answers the queued reads that a quorum confirmed, once an entry of our own term is
      committed and applied. */
  ghost function MaybeRead(n: Node): (r: Effect)
    requires Valid(n) && n.role.Leader?
    ensures Valid(r.node) && r.node.role.Leader? && r.panic.None?
    ensures r.node == n.(role := r.node.role)
  {
    if n.role.readQueue == [] then Effect(n, {}, None)
    else if n.log.commitTerm < n.log.term || |n.applied| < n.log.commitIndex then Effect(n, {}, None)
    else
      ClusterMapSize(n);
      var k := ReadyReads(n.role.readQueue, QuorumValue(ReadSeqs(n), QuorumSize(n)));
      Effect(n.(role := n.role.(readQueue := n.role.readQueue[k..])),
             ReadAnswers(n, k), None)
  }

  /** The answers to the first k queued reads. */
  function ReadAnswers(n: Node, k: nat): set<Envelope>
    requires n.role.Leader? && k <= |n.role.readQueue|
  {
    set j | 0 <= j < k ::
      Respond(n, n.role.readQueue[j].from, n.role.readQueue[j].id, ReadResponse(n.applied, n.role.readQueue[j].command))
  }

  function SendHeartbeat(n: Node): (r: Effect)
    requires Valid(n) && n.role.Leader?
    ensures Valid(r.node) && r.node.role.Leader? && r.panic.None?
    ensures Kept(n, r.node)
  {
    Effect(n.(role := n.role.(sinceHeartbeat := 0)),
           Broadcast(n, Heartbeat(|n.log.entries|, n.log.commitIndex, n.role.readSeq)), None)
  }

  /** Enters a newer term; every pending request is aborted. */
  function LeaderNewTerm(n: Node, term: Term, timeout: nat): (r: Effect)
    requires Valid(n) && n.role.Leader? && term > n.log.term
    ensures Valid(r.node) && r.node.role.Follower? && r.node.log.term == term && r.panic.None?
  {
    Effect(n.(log := SetTermVote(n.log, term, None), role := Follower(None, 0, timeout, {})),
           (set i | i in n.role.writes :: Respond(n, n.role.writes[i].from, n.role.writes[i].id, Abort))
           + (set j | 0 <= j < |n.role.readQueue| :: Respond(n, n.role.readQueue[j].from, n.role.readQueue[j].id,
               Abort)),
           None)
  }

  function SetProgress(n: Node, peer: NodeID, p: Progress): (r: Node)
    requires n.role.Leader?
  {
    n.(role := n.role.(progress := n.role.progress[peer := p]))
  }

  ghost function LeaderConfirm(n: Node, peer: NodeID, readSeq: nat): (r: Effect)
    requires Valid(n) && n.role.Leader? && peer in n.peers
    ensures Valid(r.node) && r.node.role.Leader? && r.panic.None?
    ensures Kept(n, r.node)
    ensures r.node.log == n.log
  {
    var a := AdvanceRead(n.role.progress[peer], readSeq);
    if a.None? then Effect(n, {}, None) else MaybeRead(SetProgress(n, peer, a.value))
  }

  ghost function LeaderMatch(n: Node, peer: NodeID, matchIndex: Index): (r: Effect)
    requires Valid(n) && n.role.Leader? && peer in n.peers && matchIndex <= |n.log.entries|
    ensures Valid(r.node) && r.node.role.Leader? && r.panic.None?
    ensures Kept(n, r.node)
  {
    var a := Advance(n.role.progress[peer], matchIndex);
    if a.None? then Effect(n, {}, None) else MaybeCommitAndApply(SetProgress(n, peer, a.value))
  }

  /** Moves the next index back and probes below it; without `force`, only if it moved. */
  function LeaderProbe(n: Node, peer: NodeID, nextIndex: Index, force: bool): (r: Effect)
    requires Valid(n) && n.role.Leader? && peer in n.peers && nextIndex <= |n.log.entries|
    ensures Valid(r.node) && r.node.role.Leader? && r.panic.None?
    ensures r.node == n.(role := r.node.role)
  {
    var a := RegressNext(n.role.progress[peer], nextIndex);
    var n' := if a.Some? then SetProgress(n, peer, a.value) else n;
    if a.Some? || force then MaybeSendAppend(n', peer, true) else Effect(n, {}, None)
  }

  ghost function LeaderHeartbeatResponse(n: Node, e: Envelope): (r: Effect)
    requires Valid(n) && n.role.Leader? && e.message.HeartbeatResponse?
    ensures Valid(r.node) && r.node.role.Leader?
    ensures Kept(n, r.node)
  {
    var m := e.message;
    if m.hbMatchIndex > |n.log.entries| then Effect(n, {}, Some(FutureMatchIndex))
    else if m.hbConfirmSeq > n.role.readSeq then Effect(n, {}, Some(FutureReadSeq))
    else if e.from !in n.peers then Effect(n, {}, Some(UnknownNode))
    else
      var a := LeaderConfirm(n, e.from, m.hbConfirmSeq);
      var b := if m.hbMatchIndex == 0 then LeaderProbe(a.node, e.from, |n.log.entries|, true)
          else Effect(a.node, {}, None);
      var c := LeaderMatch(b.node, e.from, m.hbMatchIndex);
      Effect(c.node, a.out + b.out + c.out, None)
  }

  ghost function LeaderAppendResponse(n: Node, e: Envelope): (r: Effect)
    requires Valid(n) && n.role.Leader? && e.message.AppendResponse?
    ensures Valid(r.node) && r.node.role.Leader?
    ensures Kept(n, r.node)
  {
    var m := e.message;
    if m.rejectIndex == 0 && m.matchIndex > 0 then
      if m.matchIndex > |n.log.entries| then Effect(n, {}, Some(FutureMatchIndex))
      else if e.from !in n.peers then Effect(n, {}, Some(UnknownNode))
      else
        var a := LeaderMatch(n, e.from, m.matchIndex);
        var b := MaybeSendAppend(a.node, e.from, false);
        Effect(b.node, a.out + b.out, None)
    else if m.matchIndex == 0 && m.rejectIndex > 0 then
      if m.rejectIndex > |n.log.entries| then Effect(n, {}, Some(FutureRejectIndex))
      else if e.from !in n.peers then Effect(n, {}, Some(UnknownNode))
      else if m.rejectIndex <= n.role.progress[e.from].matchIndex then Effect(n, {}, None)
      else LeaderProbe(n, e.from, m.rejectIndex, false)
    else Effect(n, {}, Some(InvalidAppendResponse))
  }

  ghost function LeaderReadConfirmed(n: Node, e: Envelope): (r: Effect)
    requires Valid(n) && n.role.Leader? && e.message.ReadConfirmed?
    ensures Valid(r.node) && r.node.role.Leader?
    ensures Kept(n, r.node)
  {
    if e.from !in n.peers then Effect(n, {}, Some(UnknownNode))
    else LeaderConfirm(n, e.from, e.message.seqNo)
  }

  function Status(n: Node): Response
    requires n.role.Leader?
  {
    StatusResponse(n.id, n.log.term, MatchIndexes(n), n.log.commitIndex, |n.applied|)
  }

  ghost function LeaderClientRequest(n: Node, e: Envelope): (r: Effect)
    requires Valid(n) && n.role.Leader? && e.message.ClientRequest?
    ensures Valid(r.node) && r.node.role.Leader?
    ensures Kept(n, r.node)
  {
    match e.message.request
    case WriteRequest(command) => LeaderWrite(n, e.from, e.message.id, command)
    case ReadRequest(command) => LeaderRead(n, e.from, e.message.id, command)
    case StatusRequest => Effect(n, {Respond(n, e.from, e.message.id, Status(n))}, None)
  }

  ghost function LeaderWrite(n: Node, from: NodeID, id: RequestID, command: Command): (r: Effect)
    requires Valid(n) && n.role.Leader?
    ensures Valid(r.node) && r.node.role.Leader?
    ensures Kept(n, r.node)
  {
    var p := ProposeAs(n, Some(command));
    var index := |p.node.log.entries|;
    var n' := p.node.(role := p.node.role.(writes := p.node.role.writes[index := Write(from, id)]));
    if |n.peers| == 0 then
      var c := MaybeCommitAndApply(n');
      Effect(c.node, p.out + c.out, None)
    else Effect(n', p.out, None)
  }

  ghost function LeaderRead(n: Node, from: NodeID, id: RequestID, command: Command): (r: Effect)
    requires Valid(n) && n.role.Leader?
    ensures Valid(r.node) && r.node.role.Leader?
    ensures Kept(n, r.node)
  {
    var q := n.role.readSeq + 1;
    var n' := n.(role := n.role.(readSeq := q, readQueue := n.role.readQueue + [Read(q, from, id, command)]));
    var out := Broadcast(n, ReadConfirm(q));
    if |n.peers| == 0 then
      var r := MaybeRead(n');
      Effect(r.node, out + r.out, None)
    else Effect(n', out, None)
  }

  /** A message in the leader's own term. */
  ghost function LeaderStep(n: Node, e: Envelope): (r: Effect)
    requires Valid(n) && n.role.Leader? && e.term == n.log.term
    ensures Valid(r.node) && r.node.role.Leader?
    ensures Kept(n, r.node)
  {
    match e.message
    case HeartbeatResponse(_, _) => LeaderHeartbeatResponse(n, e)
    case AppendResponse(_, _) => LeaderAppendResponse(n, e)
    case ReadConfirmed(_) => LeaderReadConfirmed(n, e)
    case ClientRequest(_, _) => LeaderClientRequest(n, e)
    case Campaign(_, _) => Effect(n, {Mail(n, e.from, CampaignResponse(false))}, None)
    case CampaignResponse(_) => Effect(n, {}, None)
    case Heartbeat(_, _, _) => Effect(n, {}, Some(SawOtherLeader))
    case Append(_, _, _) => Effect(n, {}, Some(SawOtherLeader))
    case ReadConfirm(_) => Effect(n, {}, Some(SawOtherLeader))
    case ClientResponse(_, _) => Effect(n, {}, Some(UnexpectedMessage))
  }

  // ---------------------------------------------------------------- node

  /** A message in the node's own term. */
  ghost function StepTerm(n: Node, e: Envelope, timeout: nat): (r: Effect)
    requires Valid(n) && !n.role.Halted? && e.term == n.log.term
    ensures Valid(r.node)
    ensures Kept(n, r.node)
  {
    match n.role
    case Follower(_, _, _, _) => FollowerStep(n, e)
    case Candidate(_, _, _) => CandidateStep(n, e, timeout)
    case Leader(_, _, _, _, _) => LeaderStep(n, e)
  }

  /** Leaves the role for a leaderless follower in a newer term. */
  function NewTerm(n: Node, term: Term, timeout: nat): (r: Effect)
    requires Valid(n) && !n.role.Halted? && term > n.log.term
    ensures Valid(r.node) && r.node.role.Follower? && r.node.log.term == term && r.panic.None?
  {
    match n.role
    case Follower(_, _, _, _) => FollowerNewTerm(n, term, timeout)
    case Candidate(_, _, _) => CandidateNewTerm(n, term, timeout)
    case Leader(_, _, _, _, _) => LeaderNewTerm(n, term, timeout)
  }

  /** Processes an inbound message: past terms are dropped, a future term is entered first. */
  ghost function Step(n: Node, e: Envelope, timeout: nat): (r: Effect)
    requires Valid(n) && !n.role.Halted?
    ensures Valid(r.node)
    ensures r.node.id == n.id && r.node.log.term >= n.log.term
  {
    if e.term < n.log.term then Effect(n, {}, None)
    else if e.term > n.log.term then
      var t := NewTerm(n, e.term, timeout);
      var s := FollowerStep(t.node, e);
      Effect(s.node, t.out + s.out, s.panic)
    else StepTerm(n, e, timeout)
  }

  /** Advances the logical clock. */
  function Tick(n: Node, timeout: nat): (r: Effect)
    requires Valid(n) && !n.role.Halted?
    ensures Valid(r.node) && r.panic.None?
    ensures r.node.id == n.id && r.node.log.term >= n.log.term
  {
    match n.role
    case Follower(_, seen, limit, _) =>
      var n' := n.(role := n.role.(leaderSeen := seen + 1));
      if seen + 1 >= limit then IntoCandidate(n', timeout) else Effect(n', {}, None)
    case Candidate(_, duration, limit) =>
      var n' := n.(role := n.role.(electionDuration := duration + 1));
      if duration + 1 >= limit then StartCampaign(n', timeout) else Effect(n', {}, None)
    case Leader(_, _, _, _, since) =>
      var n' := n.(role := n.role.(sinceHeartbeat := since + 1));
      if since + 1 >= n.opts.heartbeatInterval then SendHeartbeat(n') else Effect(n', {}, None)
  }
}
