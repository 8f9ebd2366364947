/** A follower whose log diverges from its leader's catches up: the exchange of appends and
    responses between the two ends after a bounded number of rounds, with equal logs. */
module RaftCatchUp {
  import opened Basics
  import opened RaftMessage
  import opened RaftLog
  import opened RaftNode
  import opened RaftHistory
  import opened RaftInvariant
  import opened RaftFollower
  import opened RaftReplica
  import opened RaftLeader
  import opened RaftSteps
  import opened RaftCluster
  import opened RaftRuns
  import opened RaftSafety

  /** A leader, one follower, and the append on its way to it. */
  datatype Exchange = Exchange(leader: Node, follower: Node, pending: Option<Envelope>)

  ghost predicate CanExchange(x: Exchange) {
    && Valid(x.leader) && x.leader.role.Leader? && Valid(x.follower) && x.follower.role.Follower?
    && x.pending.Some? && x.pending.value.message.Append?
  }

  /** The appends to a node among some messages. */
  ghost predicate AppendTo(e: Envelope, out: set<Envelope>, to: NodeID) {
    e in out && e.to == to && e.message.Append?
  }

  /** One round: the follower handles the append, and the leader handles its response; what
      the leader then sends to the follower, if anything, is the next append. */
  ghost predicate Exchanges(x: Exchange, y: Exchange)
    requires CanExchange(x)
  {
    var f := Step(x.follower, x.pending.value, 0);
    exists reply :: reply in f.out && Continues(x, f, Step(x.leader, reply, 0), y)
  }

  ghost predicate Continues(x: Exchange, f: Effect, l: Effect, y: Exchange) {
    && f.panic.None? && l.panic.None?
    && y.leader == l.node && y.follower == f.node
    && if y.pending.Some? then AppendTo(y.pending.value, l.out, x.follower.id)
       else forall e :: !AppendTo(e, l.out, x.follower.id)
  }

  /** The leader's record of the follower. */
  ghost function ProgressOf(x: Exchange): Progress
    requires x.leader.role.Leader? && x.follower.id in x.leader.role.progress
  {
    x.leader.role.progress[x.follower.id]
  }

  /** The append is the leader's latest: it ends before the next index, and is based above the
      match index, or carries entries that follow it. */
  predicate Latest(p: Progress, base: Index, es: seq<Entry>) {
    base + |es| + 1 == p.nextIndex && base >= p.matchIndex && (es == [] ==> base > p.matchIndex)
  }

  ghost predicate ExchangeOk(h: History, x: Exchange) {
    var l, f := x.leader, x.follower;
    && Good(h, l.id, l) && Good(h, f.id, f)
    && l.role.Leader? && f.role.Follower? && f.id in l.peers
    && f.log.term == l.log.term
    && l.opts.maxAppendEntries > 0
    && match x.pending
       case None => ProgressOf(x).matchIndex == |l.log.entries|
       case Some(e) =>
         && e.from == l.id && e.to == f.id && e.term == l.log.term && e.message.Append?
         && MsgOk(h, e)
         && Latest(ProgressOf(x), e.message.baseIndex, e.message.entries)
  }

  /** How many rounds may remain. */
  ghost function Rounds(x: Exchange): nat
    requires Valid(x.leader) && x.leader.role.Leader? && x.follower.id in x.leader.peers
  {
    var p, last := ProgressOf(x), |x.leader.log.entries|;
    assert ProgressOk(p, last);
    2 * (last - p.matchIndex) + if x.pending.None? then 0 else Above(p, x.pending.value)
  }

  /** How far above the match index an append is based. */
  function Above(p: Progress, e: Envelope): nat {
    if e.message.Append? && e.message.baseIndex >= p.matchIndex then e.message.baseIndex - p.matchIndex + 1 else 0
  }

  // ---------------------------------------------------------------- the leader's side

  lemma CommitKeeps(n: Node)
    requires Valid(n) && n.role.Leader?
    ensures var r := MaybeCommitAndApply(n);
            && r.node.log.entries == n.log.entries && r.node.role.progress == n.role.progress
            && forall e :: e in r.out ==> !e.message.Append?
  {
    var k := QuorumIndex(n);
    CommitCases(n, k);
    hide Valid, QuorumIndex, CommitAndApply, MaybeRead, MaybeCommitAndApply;
    if k > n.log.commitIndex && n.log.entries[k - 1].term == n.log.term {
      ApplyKeeps(n, k);
      ReadKeeps(CommitAndApply(n, k).node);
    }
  }

  lemma ApplyKeeps(n: Node, k: Index)
    requires Valid(n) && n.role.Leader? && n.log.commitIndex < k <= |n.log.entries|
    ensures var r := CommitAndApply(n, k);
            && r.node.log.entries == n.log.entries && r.node.role.progress == n.role.progress
            && forall e :: e in r.out ==> !e.message.Append?
  {
  }

  lemma ReadKeeps(n: Node)
    requires Valid(n) && n.role.Leader?
    ensures var r := MaybeRead(n);
            && r.node.log.entries == n.log.entries && r.node.role.progress == n.role.progress
            && forall e :: e in r.out ==> !e.message.Append?
  {
  }

  /** What the leader sends next, when it may: nothing only if the follower has it all. */
  lemma NextLatest(es: seq<Entry>, opts: Options, p: Progress, probe: bool)
    requires ProgressOk(p, |es|) && opts.maxAppendEntries > 0 && (p.nextIndex == p.matchIndex + 1 || probe)
    ensures var (q, m) := NextAppend(es, opts, p, probe);
            && (m.None? <==> p.matchIndex == |es|)
            && (m.Some? ==>
                  && m.value.Append? && Latest(q, m.value.baseIndex, m.value.entries)
                  && m.value.baseIndex == p.nextIndex - 1)
  {
    NextAppendFacts(es, opts, p, probe);
    hide NextAppend;
  }

  lemma SendCases(n: Node, peer: NodeID, probe: bool)
    requires Valid(n) && n.role.Leader? && peer in n.peers
    ensures var (q, m) := NextAppend(n.log.entries, n.opts, n.role.progress[peer], probe);
            MaybeSendAppend(n, peer, probe) ==
                Effect(SetProgress(n, peer, q), if m.Some? then {Mail(n, peer, m.value)} else {}, None)
  {
  }

  /** What the leader's effect says about the next append to the follower. */
  ghost predicate Sends(r: Effect, peer: NodeID, matchIndex: Index) {
    && r.node.role.Leader? && peer in r.node.role.progress
    && var p := r.node.role.progress[peer];
    && p.matchIndex == matchIndex
    && (forall e :: AppendTo(e, r.out, peer) ==>
          e.from == r.node.id && e.term == r.node.log.term && Latest(p, e.message.baseIndex, e.message.entries))
    && ((forall e :: !AppendTo(e, r.out, peer)) ==> matchIndex == |r.node.log.entries|)
  }

  lemma SendsNext(n: Node, peer: NodeID, probe: bool, before: set<Envelope>)
    requires Valid(n) && n.role.Leader? && peer in n.peers && n.opts.maxAppendEntries > 0
    requires n.role.progress[peer].nextIndex == n.role.progress[peer].matchIndex + 1 || probe
    requires forall e :: e in before ==> !e.message.Append?
    ensures var r, p := MaybeSendAppend(n, peer, probe), n.role.progress[peer];
            && Sends(Effect(r.node, before + r.out, None), peer, p.matchIndex)
            && r.node.log == n.log
            && forall e :: AppendTo(e, before + r.out, peer) ==> e.message.baseIndex == p.nextIndex - 1
  {
    var p := n.role.progress[peer];
    NextLatest(n.log.entries, n.opts, p, probe);
    SendCases(n, peer, probe);
    var (q, m) := NextAppend(n.log.entries, n.opts, p, probe);
    hide MaybeSendAppend, NextAppend, Valid;
    if m.Some? { assert AppendTo(Mail(n, peer, m.value), before + {Mail(n, peer, m.value)}, peer); }
  }

  /** An accepted append raises the match index, and the next entries follow. */
  lemma AcceptCases(n: Node, peer: NodeID, k: Index)
    requires Valid(n) && n.role.Leader? && peer in n.peers && n.opts.maxAppendEntries > 0
    requires n.role.progress[peer].matchIndex < k <= |n.log.entries| && n.role.progress[peer].nextIndex == k + 1
    ensures var a := LeaderMatch(n, peer, k);
            var b := MaybeSendAppend(a.node, peer, false);
            && Sends(Effect(b.node, a.out + b.out, None), peer, k) && b.node.log.entries == n.log.entries
            && forall e :: AppendTo(e, a.out + b.out, peer) ==> e.message.baseIndex == k
  {
    var p := Advance(n.role.progress[peer], k).value;
    var x := SetProgress(n, peer, p);
    CommitKeeps(x);
    var a := LeaderMatch(n, peer, k);
    assert a == MaybeCommitAndApply(x) && a.node.role.progress[peer] == p && a.node.opts == n.opts;
    hide MaybeCommitAndApply, LeaderMatch, MaybeSendAppend, Valid;
    SendsNext(a.node, peer, false, a.out);
  }

  /** A rejection lowers the next index, and the leader probes there or sends from the match. */
  lemma RejectCases(n: Node, peer: NodeID, k: Index)
    requires Valid(n) && n.role.Leader? && peer in n.peers && n.opts.maxAppendEntries > 0
    requires n.role.progress[peer].matchIndex < k < n.role.progress[peer].nextIndex && k <= |n.log.entries|
    ensures var r := LeaderProbe(n, peer, k, false);
            && Sends(r, peer, n.role.progress[peer].matchIndex) && r.node.log.entries == n.log.entries
            && r.node.role.progress[peer].matchIndex < |n.log.entries|
            && forall e :: AppendTo(e, r.out, peer) ==> e.message.baseIndex == k - 1
  {
    var p := RegressNext(n.role.progress[peer], k).value;
    var x := SetProgress(n, peer, p);
    var r := LeaderProbe(n, peer, k, false);
    assert r == MaybeSendAppend(x, peer, true) && x.role.progress[peer] == p && Valid(x);
    hide LeaderProbe, MaybeSendAppend, Valid;
    SendsNext(x, peer, true, {});
    assert {} + r.out == r.out;
  }

  // ---------------------------------------------------------------- the follower's side

  /** What a node of the leader's term holds of the leader's log. */
  lemma MatchHeld(h: History, l: Node, f: Node)
    requires Good(h, l.id, l) && Good(h, f.id, f) && l.role.Leader? && f.id in l.peers && f.log.term == l.log.term
    ensures f.id in l.role.progress
    ensures var k := l.role.progress[f.id].matchIndex;
            k <= |l.log.entries| && k <= |f.log.entries| && Prefix(l.log.entries[..k], f.log.entries)
  {
    var t, k := l.log.term, l.role.progress[f.id].matchIndex;
    assert ProgressOk(l.role.progress[f.id], |l.log.entries|);
    if k > 0 {
      assert ProgressState(h, t, f.id, l.role.progress[f.id]);
      assert AckOk(h, t, f.id);
      var bound := t + 1;
      assert Keeps(h, f.log.entries, t, k, bound);
      assert LogOf(h, t, k) == l.log.entries[..k];
    }
  }

  lemma FollowerHolds(h: History, x: Exchange)
    requires ExchangeOk(h, x)
    ensures ProgressOf(x).matchIndex <= |x.follower.log.entries|
    ensures Prefix(x.leader.log.entries[..ProgressOf(x).matchIndex], x.follower.log.entries)
  {
    MatchHeld(h, x.leader, x.follower);
  }

  /** A status that a leader reports at any moment of any run: every match index in it, also the
      leader's own, is held by its node, if that is in the leader's term. */
  lemma StatusHeld(r: Run, k: nat, i: NodeID, j: NodeID)
    requires At(r, k, i) && At(r, k, j) && NodeAt(r, k, i).role.Leader?
    requires NodeAt(r, k, j).log.term == NodeAt(r, k, i).log.term
    ensures var s, l, f := Status(NodeAt(r, k, i)), NodeAt(r, k, i).log.entries, NodeAt(r, k, j).log.entries;
            && s.StatusResponse? && j in s.matchIndex && s.matchIndex[j] <= |l|
            && Prefix(l[..s.matchIndex[j]], f)
  {
    var hs := TraceOf(r);
    NodeInvariant(r, hs, k, i);
    NodeInvariant(r, hs, k, j);
    var l, f := NodeAt(r, k, i), NodeAt(r, k, j);
    assert l.id == i && f.id == j && (i != j ==> j in l.peers);
    hide ValidRun, Good, Trace;
    if i == j {
      assert l.log.entries[..|l.log.entries|] == l.log.entries;
    } else {
      MatchHeld(hs[k], l, f);
    }
  }

  /** The follower accepts, or rejects at an index above the match index. */
  lemma FollowerReplies(h: History, x: Exchange) returns (k: Index, r: Index)
    requires ExchangeOk(h, x) && x.pending.Some?
    ensures CanExchange(x)
    ensures var f := FollowerAppend(x.follower, x.pending.value);
            f.out == {Mail(x.follower, x.leader.id, AppendResponse(k, r))} && f.panic.None?
    ensures var m, p := x.pending.value.message, ProgressOf(x);
            if r == 0 then k == m.baseIndex + |m.entries| && k > p.matchIndex
            else k == 0 && p.matchIndex < r <= m.baseIndex
  {
    hide *;
    ExchangeFacts(h, x);
    var l, f, e := x.leader, x.follower, x.pending.value;
    var m := e.message;
    FollowerHolds(h, x);
    AppendIndexes(h, e);
    var g := HearLeaderOk(h, f.id, f, l.id);
    AppendCases(f, e);
    if m.baseIndex == 0 || Has(f.log.entries, m.baseIndex, m.baseTerm) {
      AcceptsSplice(h, x);
      k, r := m.baseIndex + |m.entries|, 0;
      LatestRaises(ProgressOf(x), m.baseIndex, m.entries);
    } else {
      BaseHeld(h, x);
      MinIs(m.baseIndex, |f.log.entries| + 1);
      k, r := 0, Min(m.baseIndex, |f.log.entries| + 1);
    }
  }

  lemma MinIs(a: nat, b: nat)
    ensures Min(a, b) <= a && Min(a, b) <= b && (Min(a, b) == a || Min(a, b) == b)
  {
  }

  lemma LatestRaises(p: Progress, base: Index, es: seq<Entry>)
    requires Latest(p, base, es)
    ensures base + |es| > p.matchIndex
  {
  }

  /** What an exchange with an append on its way is. */
  lemma ExchangeFacts(h: History, x: Exchange)
    requires ExchangeOk(h, x)
    ensures var l, f := x.leader, x.follower;
            && Good(h, l.id, l) && Good(h, f.id, f) && l.role.Leader? && f.role.Follower? && Valid(l) && Valid(f)
            && f.id in l.peers && l.id in f.peers && l.id != f.id && f.log.term == l.log.term &&
                l.opts.maxAppendEntries > 0
            && l.id in h.ids && f.id in h.ids
            && Leads(h, l.log.term, l.id) && l.role.progress.Keys == l.peers &&
                ProgressOk(ProgressOf(x), |l.log.entries|)
    ensures x.pending.Some? ==>
              var e := x.pending.value;
              && CanExchange(x) && MsgOk(h, e) && e.message.Append?
              && e.from == x.leader.id && e.to == x.follower.id && e.term == x.leader.log.term
              && Latest(ProgressOf(x), e.message.baseIndex, e.message.entries)
  {
  }

  lemma AcceptsSplice(h: History, x: Exchange)
    requires ExchangeOk(h, x) && x.pending.Some?
    requires var m := x.pending.value.message; m.baseIndex == 0 || Has(x.follower.log.entries, m.baseIndex, m.baseTerm)
    ensures SpliceFault(x.follower.log, x.pending.value.message.entries).None?
  {
    var g := AppendHeard(h, x.follower.id, x.follower, x.pending.value);
  }

  /** An append based on the match index is never rejected. */
  lemma BaseHeld(h: History, x: Exchange)
    requires ExchangeOk(h, x) && x.pending.Some?
    requires var m := x.pending.value.message; m.baseIndex > 0 && !Has(x.follower.log.entries, m.baseIndex, m.baseTerm)
    ensures x.pending.value.message.baseIndex > ProgressOf(x).matchIndex
  {
    var m, k := x.pending.value.message, ProgressOf(x).matchIndex;
    FollowerHolds(h, x);
    if k > 0 {
      assert x.leader.log.entries[k - 1] == x.leader.log.entries[..k][k - 1] == x.follower.log.entries[k - 1];
    }
  }

  // ---------------------------------------------------------------- rounds

  /** The follower as it handles a message of its leader. */
  function Seen(n: Node, from: NodeID): Node
    requires n.role.Follower?
  {
    if n.role.leader == Some(from) then n.(role := n.role.(leaderSeen := 0)) else n
  }

  ghost function Fresh(x: Exchange): Exchange
    requires x.follower.role.Follower?
  {
    x.(follower := Seen(x.follower, x.leader.id))
  }

  lemma FreshOk(h: History, x: Exchange)
    requires ExchangeOk(h, x)
    ensures ExchangeOk(h, Fresh(x)) && Fresh(x).leader == x.leader && Fresh(x).pending == x.pending
    ensures Fresh(x).follower.id == x.follower.id && Fresh(x).follower.log == x.follower.log
  {
  }

  /** The handlers that take part in a round. */
  lemma AppendHandled(n: Node, e: Envelope)
    requires Valid(n) && n.role.Follower? && e.message.Append? && e.term == n.log.term
    ensures Valid(Seen(n, e.from)) && Step(n, e, 0) == FollowerAppend(Seen(n, e.from), e)
  {
    hide FollowerAppend;
  }

  lemma ResponseHandled(n: Node, e: Envelope)
    requires Valid(n) && n.role.Leader? && e.message.AppendResponse? && e.term == n.log.term
    ensures Step(n, e, 0) == LeaderAppendResponse(n, e)
  {
    hide LeaderAppendResponse;
  }

  /** What a round does. */
  lemma RoundIs(h: History, x: Exchange) returns (k: Index, r: Index)
    requires ExchangeOk(h, x) && x.pending.Some?
    ensures CanExchange(x) && Valid(x.leader)
    ensures var f, reply := Step(x.follower, x.pending.value, 0), Mail(x.follower, x.leader.id, AppendResponse(k, r));
            var l := Step(x.leader, reply, 0);
            && f == FollowerAppend(Fresh(x).follower, x.pending.value) && l == LeaderAppendResponse(x.leader, reply)
            && f.out == {reply} && f.panic.None? && l.panic.None?
            && (if r == 0 then k == x.pending.value.message.baseIndex + |x.pending.value.message.entries|
                               && k > ProgressOf(x).matchIndex
                else k == 0 && ProgressOf(x).matchIndex < r <= x.pending.value.message.baseIndex)
            && Sends(l, x.follower.id, if r == 0 then k else ProgressOf(x).matchIndex)
            && l.node.log.entries == x.leader.log.entries
            && forall e :: AppendTo(e, l.out, x.follower.id) ==> e.message.baseIndex == if r == 0 then k else r - 1
  {
    hide *;
    ExchangeFacts(h, x);
    FreshOk(h, x);
    k, r := FollowerReplies(h, Fresh(x));
    SameProgress(x);
    AppendHandled(x.follower, x.pending.value);
    ReplyIs(x.follower, x.leader.id, k, r);
    ReplyIs(Fresh(x).follower, x.leader.id, k, r);
    ResponseHandled(x.leader, Mail(x.follower, x.leader.id, AppendResponse(k, r)));
    LeaderAnswers(h, Fresh(x), k, r);
  }

  lemma SameProgress(x: Exchange)
    requires x.leader.role.Leader? && x.follower.role.Follower? && x.follower.id in x.leader.role.progress
    ensures Fresh(x).follower.id == x.follower.id && Fresh(x).leader == x.leader && Fresh(x).pending == x.pending
    ensures Fresh(x).follower == Seen(x.follower, x.leader.id) && ProgressOf(Fresh(x)) == ProgressOf(x)
  {
  }

  /** An exchange is never stuck. */
  lemma RoundExists(h: History, x: Exchange) returns (y: Exchange)
    requires ExchangeOk(h, x) && x.pending.Some?
    ensures CanExchange(x) && Exchanges(x, y)
  {
    var k, r := RoundIs(h, x);
    var f, reply := Step(x.follower, x.pending.value, 0), Mail(x.follower, x.leader.id, AppendResponse(k, r));
    var l := Step(x.leader, reply, 0);
    hide Step, ExchangeOk, Sends;
    if e :| AppendTo(e, l.out, x.follower.id) {
      y := Exchange(l.node, f.node, Some(e));
    } else {
      y := Exchange(l.node, f.node, None);
    }
    assert reply in f.out && Continues(x, f, Step(x.leader, reply, 0), y);
  }

  /** The leader's answer to the follower's reply. */
  lemma LeaderAnswers(h: History, x: Exchange, k: Index, r: Index)
    requires ExchangeOk(h, x) && x.pending.Some?
    requires var m, p := x.pending.value.message, ProgressOf(x);
             if r == 0 then k == m.baseIndex + |m.entries| && k > p.matchIndex
             else k == 0 && p.matchIndex < r <= m.baseIndex
    ensures Valid(x.leader) && x.leader.role.Leader?
    ensures var reply := Mail(x.follower, x.leader.id, AppendResponse(k, r));
            var a, f, p := LeaderAppendResponse(x.leader, reply), x.follower.id, ProgressOf(x);
            && Sends(a, f, if r == 0 then k else p.matchIndex) && a.node.log.entries == x.leader.log.entries &&
                a.panic.None?
            && forall e :: AppendTo(e, a.out, f) ==> e.message.baseIndex == if r == 0 then k else r - 1
  {
    ExchangeFacts(h, x);
    var n, f := x.leader, x.follower.id;
    var reply := Mail(x.follower, n.id, AppendResponse(k, r));
    hide Good, MsgOk, ExchangeOk, Valid;
    if r == 0 {
      AcceptedResponse(n, reply);
      hide *;
      LatestIs(ProgressOf(x), x.pending.value.message.baseIndex, x.pending.value.message.entries, |n.log.entries|);
      AcceptCases(n, f, k);
    } else {
      RejectedResponse(n, reply);
      hide *;
      LatestIs(ProgressOf(x), x.pending.value.message.baseIndex, x.pending.value.message.entries, |n.log.entries|);
      RejectCases(n, f, r);
    }
  }

  lemma LatestIs(p: Progress, base: Index, es: seq<Entry>, last: Index)
    requires Latest(p, base, es) && ProgressOk(p, last)
    ensures base + |es| + 1 == p.nextIndex && base + |es| <= last && p.matchIndex <= last
  {
  }

  lemma AcceptedResponse(n: Node, reply: Envelope)
    requires Valid(n) && n.role.Leader? && reply.from in n.peers && reply.message.AppendResponse?
    requires reply.message.rejectIndex == 0 && 0 < reply.message.matchIndex <= |n.log.entries|
    ensures var a := LeaderMatch(n, reply.from, reply.message.matchIndex);
            var b := MaybeSendAppend(a.node, reply.from, false);
            LeaderAppendResponse(n, reply) == Effect(b.node, a.out + b.out, None)
  {
  }

  lemma RejectedResponse(n: Node, reply: Envelope)
    requires Valid(n) && n.role.Leader? && reply.from in n.peers && reply.message.AppendResponse?
    requires reply.message.matchIndex == 0
    requires n.role.progress[reply.from].matchIndex < reply.message.rejectIndex <= |n.log.entries|
    ensures LeaderAppendResponse(n, reply) == LeaderProbe(n, reply.from, reply.message.rejectIndex, false)
  {
  }

  /** A round keeps the exchange good, the leader's log as it is, and brings the end nearer. */
  lemma RoundOk(h: History, x: Exchange, y: Exchange) returns (g: History)
    requires ExchangeOk(h, x) && CanExchange(x) && Exchanges(x, y)
    ensures ExchangeOk(g, y) && y.leader.log.entries == x.leader.log.entries && y.leader.log.term == x.leader.log.term
    ensures y.leader.id == x.leader.id && y.follower.id == x.follower.id
    ensures Valid(x.leader) && Valid(y.leader) && y.leader.role.Leader? && y.follower.id in y.leader.peers
    ensures x.follower.id in x.leader.peers
    ensures Rounds(y) < Rounds(x)
  {
    var k, r := RoundIs(h, x);
    var e, i, j, t := x.pending.value, x.leader.id, x.follower.id, x.leader.log.term;
    var f, reply := Step(x.follower, e, 0), Mail(x.follower, i, AppendResponse(k, r));
    var l, z := Step(x.leader, reply, 0), Fresh(x);
    OneReply(x, y, reply);
    hide *;
    ExchangeFacts(h, x);
    FreshOk(h, x);
    ExchangeFacts(h, z);
    EffectKept(z, reply);
    ReplyIs(x.follower, i, k, r);
    var g1 := FollowerAppendOk(h, j, z.follower, e);
    OutcomeParts(h, g1, j, f);
    GoodGrows(h, g1, j, t, i, x.leader);
    ReplyArrives(g1, f.out, reply, i);
    g := LeaderAppendResponseOk(g1, i, x.leader, reply);
    OutcomeParts(g1, g, i, l);
    GoodGrows(g1, g, i, t, j, f.node);
    ContinuesIs(x, f, l, y);
    NextExchange(g, x, y, l, if r == 0 then k else ProgressOf(x).matchIndex);
    FewerRounds(h, x, y, l, k, r);
  }

  lemma ReplyIs(n: Node, to: NodeID, k: Index, r: Index)
    ensures var reply := Mail(n, to, AppendResponse(k, r));
            && reply.from == n.id && reply.to == to && reply.term == n.log.term
            && reply.message == AppendResponse(k, r)
  {
  }

  lemma ContinuesIs(x: Exchange, f: Effect, l: Effect, y: Exchange)
    requires Continues(x, f, l, y)
    ensures y.leader == l.node && y.follower == f.node
    ensures if y.pending.Some? then AppendTo(y.pending.value, l.out, x.follower.id)
            else forall e :: !AppendTo(e, l.out, x.follower.id)
  {
  }

  lemma OneReply(x: Exchange, y: Exchange, reply: Envelope)
    requires CanExchange(x) && Exchanges(x, y) && Step(x.follower, x.pending.value, 0).out == {reply}
    ensures Continues(x, Step(x.follower, x.pending.value, 0), Step(x.leader, reply, 0), y)
  {
    hide Step, Valid;
  }

  lemma EffectKept(x: Exchange, reply: Envelope)
    requires CanExchange(x) && reply.message.AppendResponse?
    ensures var f := FollowerAppend(x.follower, x.pending.value).node;
            f.id == x.follower.id && f.role.Follower? && f.log.term == x.follower.log.term
    ensures var l := LeaderAppendResponse(x.leader, reply).node;
            && l.id == x.leader.id && l.peers == x.leader.peers && l.opts == x.leader.opts && l.role.Leader? && Valid(l)
            && l.log.term == x.leader.log.term
  {
  }

  lemma GoodGrows(h: History, g: History, i: NodeID, t: Term, j: NodeID, n: Node)
    requires Good(h, j, n) && Grow(h, g, i, t) && HistOk(g) && j != i
    ensures Good(g, j, n)
  {
    NodeGrows(h, g, i, t, j, n);
  }

  lemma ReplyArrives(g: History, out: set<Envelope>, reply: Envelope, i: NodeID)
    requires MsgsOk(g, out) && reply in out && reply.to == i && reply.from != i
    ensures Arrives(g, i, reply)
  {
    assert MsgOk(g, reply);
  }

  lemma NextExchange(g: History, x: Exchange, y: Exchange, l: Effect, matchIndex: Index)
    requires Good(g, y.leader.id, y.leader) && Good(g, y.follower.id, y.follower) && MsgsOk(g, l.out)
    requires y.leader == l.node && l.node.role.Leader? && y.follower.role.Follower? && y.follower.id in y.leader.peers
    requires y.follower.log.term == y.leader.log.term && y.leader.opts.maxAppendEntries > 0
    requires x.follower.id == y.follower.id && Sends(l, y.follower.id, matchIndex)
    requires if y.pending.Some? then AppendTo(y.pending.value, l.out, x.follower.id)
        else forall e :: !AppendTo(e, l.out, x.follower.id)
    ensures ExchangeOk(g, y)
  {
    if y.pending.Some? { assert MsgOk(g, y.pending.value); }
    hide Good, MsgOk;
  }

  lemma FewerRounds(h: History, x: Exchange, y: Exchange, l: Effect, k: Index, r: Index)
    requires ExchangeOk(h, x) && x.pending.Some? && Valid(x.leader) && Valid(l.node) && y.leader == l.node
    requires l.node.role.Leader?
    requires y.follower.id == x.follower.id && y.follower.id in y.leader.peers
    requires y.leader.log.entries == x.leader.log.entries
    requires var m, p := x.pending.value.message, ProgressOf(x);
             if r == 0 then k == m.baseIndex + |m.entries| && k > p.matchIndex
             else k == 0 && p.matchIndex < r <= m.baseIndex
    requires Sends(l, x.follower.id, if r == 0 then k else ProgressOf(x).matchIndex)
    requires y.pending.Some? ==> AppendTo(y.pending.value, l.out, x.follower.id)
    requires forall e :: AppendTo(e, l.out, x.follower.id) ==> e.message.baseIndex == if r == 0 then k else r - 1
    ensures x.follower.id in x.leader.peers && x.leader.role.Leader? && Rounds(y) < Rounds(x)
  {
    ExchangeFacts(h, x);
    hide Good, MsgOk, Valid;
  }

  /** When nothing is on its way any more, the logs are equal. */
  lemma CaughtUp(h: History, x: Exchange)
    requires ExchangeOk(h, x) && x.pending.None?
    ensures x.follower.log.entries == x.leader.log.entries
  {
    var a := x.leader.log.entries;
    FollowerHolds(h, x);
    assert a[..|a|] == a;
    hide Coherent, Safe, KeepsAll;
    NoLonger(h, x.leader, x.follower);
  }

  /** No log of the leader's term is longer than the leader's. */
  lemma NoLonger(h: History, l: Node, f: Node)
    requires Good(h, l.id, l) && Good(h, f.id, f) && l.role.Leader? && f.log.term == l.log.term
    requires Prefix(l.log.entries, f.log.entries)
    ensures f.log.entries == l.log.entries
  {
    var a, b, t := l.log.entries, f.log.entries, l.log.term;
    assert ReignOk(h, t);
    if |b| > |a| {
      assert b[|a| - 1] == a[|a| - 1] && Ordered(b, |a| - 1, |a|);
      TermsBounded(b, |a|);
      CoherentShort(h, b, |a|);
    }
  }

  lemma CoherentShort(h: History, es: seq<Entry>, k: nat)
    requires Coherent(h, es) && k < |es|
    ensures es[k].term in h.reigns && k < |h.reigns[es[k].term].log|
  {
    assert CoherentAt(h, es, k);
  }

  /** A run of the exchange. */
  ghost predicate ExchangeRun(xs: seq<Exchange>) {
    forall i :: 0 <= i < |xs| - 1 ==> CanExchange(xs[i]) && Exchanges(xs[i], xs[i + 1])
  }

  /** Catch-up terminates: from any reachable divergence, every run of the exchange is bounded,
      it can go on until nothing is on its way, and then the logs are equal. */
  lemma {:induction false} CatchUp(h: History, xs: seq<Exchange>) returns (g: History)
    requires xs != [] && ExchangeOk(h, xs[0]) && ExchangeRun(xs)
    ensures Valid(xs[0].leader) && xs[0].leader.role.Leader? && xs[0].follower.id in xs[0].leader.peers
    ensures |xs| - 1 <= Rounds(xs[0])
    ensures var y := xs[|xs| - 1];
            && ExchangeOk(g, y) && y.leader.log.entries == xs[0].leader.log.entries
            && if y.pending.Some? then CanExchange(y) && exists z :: Exchanges(y, z)
               else y.follower.log.entries == y.leader.log.entries
    decreases |xs|
  {
    hide *;
    ExchangeFacts(h, xs[0]);
    if |xs| == 1 {
      g := h;
      if xs[0].pending.Some? { var z := RoundExists(h, xs[0]); } else { CaughtUp(h, xs[0]); }
    } else {
      RunStep(xs);
      var f := RoundOk(h, xs[0], xs[1]);
      g := CatchUp(f, xs[1..]);
    }
  }

  lemma RunStep(xs: seq<Exchange>)
    requires ExchangeRun(xs) && |xs| > 1
    ensures CanExchange(xs[0]) && Exchanges(xs[0], xs[1]) && ExchangeRun(xs[1..])
  {
    hide Exchanges, CanExchange;
    forall i | 0 <= i < |xs[1..]| - 1 ensures CanExchange(xs[1..][i]) && Exchanges(xs[1..][i], xs[1..][i + 1]) {
      assert CanExchange(xs[i + 1]) && Exchanges(xs[i + 1], xs[i + 2]);
    }
  }

  // ---------------------------------------------------------------- how exchanges start

  /** In every run, a leader's latest append to a follower of its term starts an exchange. */
  lemma ReachableExchange(r: Run, k: nat, i: NodeID, j: NodeID, e: Envelope) returns (h: History)
    requires At(r, k, i) && At(r, k, j) && NodeAt(r, k, i).role.Leader? && NodeAt(r, k, j).role.Follower? && i != j
    requires NodeAt(r, k, i).log.term == NodeAt(r, k, j).log.term && NodeAt(r, k, i).opts.maxAppendEntries > 0
    requires e in r.states[k].sent && e.from == i && e.to == j && e.term == NodeAt(r, k, i).log.term
    requires e.message.Append?
    requires j in NodeAt(r, k, i).role.progress
    requires Latest(NodeAt(r, k, i).role.progress[j], e.message.baseIndex, e.message.entries)
    ensures ExchangeOk(h, Exchange(NodeAt(r, k, i), NodeAt(r, k, j), Some(e)))
  {
    var hs := TraceOf(r);
    h := hs[k];
    NodeInvariant(r, hs, k, i);
    NodeInvariant(r, hs, k, j);
    assert TraceAt(r, hs, k) && MsgOk(h, e);
    hide Trace, TraceAt, Inv, ValidRun, MsgOk;
    assert j in NodeAt(r, k, i).peers && NodeAt(r, k, i).id == i && NodeAt(r, k, j).id == j;
  }

  /** A heartbeat response that reports no match makes the leader send such an append, unless
      it knows that the follower has everything. */
  lemma HeartbeatStarts(n: Node, e: Envelope)
    requires Valid(n) && n.role.Leader? && e.from in n.peers && n.opts.maxAppendEntries > 0
    requires e.message.HeartbeatResponse? && e.message.hbMatchIndex == 0 && e.message.hbConfirmSeq <= n.role.readSeq
    ensures var r := LeaderHeartbeatResponse(n, e);
            Sends(r, e.from, n.role.progress[e.from].matchIndex) && r.node.log.entries == n.log.entries && r.panic.None?
  {
    LeaderHeartbeatResponseCases(n, e);
    var peer, last := e.from, |n.log.entries|;
    var a := LeaderConfirm(n, peer, e.message.hbConfirmSeq);
    ConfirmKeeps(n, peer, e.message.hbConfirmSeq);
    var p := a.node.role.progress[peer];
    var regressed := RegressNext(p, last);
    var x := if regressed.Some? then SetProgress(a.node, peer, regressed.value) else a.node;
    var b := LeaderProbe(a.node, peer, last, true);
    assert b == MaybeSendAppend(x, peer, true) && Valid(x) && x.opts == n.opts;
    var c := LeaderMatch(b.node, peer, 0);
    assert c == Effect(b.node, {}, None);
    hide LeaderHeartbeatResponse, LeaderConfirm, LeaderProbe, LeaderMatch, MaybeSendAppend, Valid;
    SendsNext(x, peer, true, a.out);
    assert (a.out + b.out) + {} == a.out + b.out;
  }

  lemma ConfirmKeeps(n: Node, peer: NodeID, q: nat)
    requires Valid(n) && n.role.Leader? && peer in n.peers
    ensures var r := LeaderConfirm(n, peer, q);
            && r.node.log == n.log && r.node.opts == n.opts && r.node.peers == n.peers
            && r.node.role.progress.Keys == n.role.progress.Keys
            && r.node.role.progress[peer].matchIndex == n.role.progress[peer].matchIndex
            && forall e :: e in r.out ==> !e.message.Append?
  {
  }
}
