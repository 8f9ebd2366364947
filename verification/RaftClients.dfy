/** Client requests: every request submitted to a node is pending there or has been answered,
    once. */
module RaftClients {
  import opened Basics
  import opened RaftMessage
  import opened RaftLog
  import opened RaftNode
  import opened RaftHistory
  import opened RaftFollower
  import opened RaftCluster
  import opened RaftRuns
  import opened RaftSafety

  // ---------------------------------------------------------------- one step

  /** An answer to a local client. */
  predicate LocalAnswer(i: NodeID, e: Envelope) {
    e.from == i && e.to == i && e.message.ClientResponse?
  }

  function AnsweredIds(out: set<Envelope>, i: NodeID): set<RequestID> {
    set e | e in out && LocalAnswer(i, e) :: e.message.id
  }

  /** No request is answered twice by the same messages. */
  ghost predicate OneAnswer(out: set<Envelope>, i: NodeID) {
    forall e, e' ::
      e in out && e' in out && LocalAnswer(i, e) && LocalAnswer(i, e') && e.message.id == e'.message.id ==> e == e'
  }

  function LocalWrites(n: Node): set<RequestID>
    requires n.role.Leader?
  {
    set k | k in n.role.writes && n.role.writes[k].from == n.id :: n.role.writes[k].id
  }

  function LocalReads(n: Node): set<RequestID>
    requires n.role.Leader?
  {
    set j | 0 <= j < |n.role.readQueue| && n.role.readQueue[j].from == n.id :: n.role.readQueue[j].id
  }

  /** The local requests a node still has to answer. */
  function Local(n: Node): set<RequestID> {
    match n.role
    case Follower(_, _, _, forwarded) => forwarded
    case Leader(_, _, _, _, _) => LocalWrites(n) + LocalReads(n)
    case _ => {}
  }

  /** Each pending local request is in one place. */
  ghost predicate ClientsOk(n: Node) {
    n.role.Leader? ==>
      var w, q := n.role.writes, n.role.readQueue;
      && (forall k :: k in w ==> k <= |n.log.entries|)
      && (forall a, b :: a in w && b in w && a != b && w[a].from == n.id && w[b].from == n.id ==> w[a].id != w[b].id)
      && (forall j, k :: 0 <= j < k < |q| && q[j].from == n.id && q[k].from == n.id ==> q[j].id != q[k].id)
      && LocalWrites(n) !! LocalReads(n)
  }

  /** What was pending or is new is pending or answered, and not both. */
  ghost predicate Accounts(n: Node, asked: set<RequestID>, r: Effect) {
    && r.node.id == n.id
    && ClientsOk(r.node)
    && OneAnswer(r.out, n.id)
    && AnsweredIds(r.out, n.id) !! Local(r.node)
    && AnsweredIds(r.out, n.id) + Local(r.node) == Local(n) + asked
  }

  /** Messages that answer no local client. */
  ghost predicate Silent(out: set<Envelope>, i: NodeID) {
    forall e :: e in out ==> !LocalAnswer(i, e)
  }

  lemma SilentAnswers(out: set<Envelope>, i: NodeID)
    requires Silent(out, i)
    ensures AnsweredIds(out, i) == {} && OneAnswer(out, i)
  {
  }

  /** A step that leaves the pending requests alone. */
  lemma Quiet(n: Node, r: Effect)
    requires r.node.id == n.id && ClientsOk(r.node) && Local(r.node) == Local(n) && Silent(r.out, n.id)
    ensures Accounts(n, {}, r)
  {
    SilentAnswers(r.out, n.id);
  }

  lemma AnsweredTogether(a: set<Envelope>, b: set<Envelope>, i: NodeID)
    ensures AnsweredIds(a + b, i) == AnsweredIds(a, i) + AnsweredIds(b, i)
    ensures OneAnswer(a, i) && OneAnswer(b, i) && AnsweredIds(a, i) !! AnsweredIds(b, i) ==> OneAnswer(a + b, i)
  {
    forall id ensures id in AnsweredIds(a + b, i) <==> id in AnsweredIds(a, i) + AnsweredIds(b, i) {
      if id in AnsweredIds(a + b, i) { var e :| e in a + b && LocalAnswer(i, e) && e.message.id == id; }
      if id in AnsweredIds(a, i) { var e :| e in a && LocalAnswer(i, e) && e.message.id == id; assert e in a + b; }
      if id in AnsweredIds(b, i) { var e :| e in b && LocalAnswer(i, e) && e.message.id == id; assert e in a + b; }
    }
    if OneAnswer(a, i) && OneAnswer(b, i) && AnsweredIds(a, i) !! AnsweredIds(b, i) {
      forall e, e' | e in a + b && e' in a + b && LocalAnswer(i, e) && LocalAnswer(i, e') &&
          e.message.id == e'.message.id ensures e == e' {
        if e in a { assert e.message.id in AnsweredIds(a, i); }
        if e' in a { assert e'.message.id in AnsweredIds(a, i); }
        if e in b { assert e.message.id in AnsweredIds(b, i); }
        if e' in b { assert e'.message.id in AnsweredIds(b, i); }
      }
    }
  }

  /** One step after another. */
  lemma Both(n: Node, asked: set<RequestID>, a: Effect, b: Effect)
    requires Accounts(n, asked, a) && Accounts(a.node, {}, b)
    ensures Accounts(n, asked, Effect(b.node, a.out + b.out, b.panic))
  {
    AnsweredTogether(a.out, b.out, n.id);
  }

  lemma OneLocal(i: NodeID, e: Envelope)
    requires LocalAnswer(i, e)
    ensures AnsweredIds({e}, i) == {e.message.id} && OneAnswer({e}, i)
  {
    assert e.message.id in AnsweredIds({e}, i);
  }

  // ---------------------------------------------------------------- followers and candidates

  lemma AbortsAll(n: Node, ids: set<RequestID>)
    ensures AnsweredIds(AbortAll(n, ids), n.id) == ids && OneAnswer(AbortAll(n, ids), n.id)
  {
    var out := AbortAll(n, ids);
    forall id ensures id in AnsweredIds(out, n.id) <==> id in ids {
      if id in ids {
        var e := Envelope(n.id, n.log.term, n.id, ClientResponse(id, Abort));
        assert e in out && LocalAnswer(n.id, e) && e.message.id == id;
      }
    }
  }

  lemma NewTermAccounts(n: Node, term: Term, timeout: nat)
    requires Valid(n) && !n.role.Halted? && term > n.log.term && ClientsOk(n)
    ensures Accounts(n, {}, NewTerm(n, term, timeout))
  {
    if n.role.Follower? { AbortsAll(n, n.role.forwarded); }
    else if n.role.Leader? { LeaderAborts(n, term, timeout); }
    else { SilentAnswers({}, n.id); }
  }

  lemma LeaderAborts(n: Node, term: Term, timeout: nat)
    requires Valid(n) && n.role.Leader? && term > n.log.term && ClientsOk(n)
    ensures AnsweredIds(LeaderNewTerm(n, term, timeout).out, n.id) == Local(n)
    ensures OneAnswer(LeaderNewTerm(n, term, timeout).out, n.id)
  {
    var w, q := n.role.writes, n.role.readQueue;
    var a := set i | i in w :: Respond(n, w[i].from, w[i].id, Abort);
    var b := set j | 0 <= j < |q| :: Respond(n, q[j].from, q[j].id, Abort);
    forall id ensures id in AnsweredIds(a, n.id) <==> id in LocalWrites(n) {
      if id in LocalWrites(n) {
        var i :| i in w && w[i].from == n.id && w[i].id == id;
        assert Respond(n, w[i].from, w[i].id, Abort) in a;
      }
    }
    forall id ensures id in AnsweredIds(b, n.id) <==> id in LocalReads(n) {
      if id in LocalReads(n) {
        var j :| 0 <= j < |q| && q[j].from == n.id && q[j].id == id;
        assert Respond(n, q[j].from, q[j].id, Abort) in b;
      }
    }
    assert AnsweredIds(a, n.id) == LocalWrites(n) && AnsweredIds(b, n.id) == LocalReads(n);
    AnsweredTogether(a, b, n.id);
    assert LeaderNewTerm(n, term, timeout).out == a + b;
  }

  /** The requests a message asks, if it is a local client's. */
  function Asks(n: Node, e: Envelope): set<RequestID> {
    if e.from == n.id && e.message.ClientRequest? then {e.message.id} else {}
  }

  lemma FollowerAccounts(n0: Node, e: Envelope)
    requires Valid(n0) && n0.role.Follower? && e.term == n0.log.term && FollowerStep(n0, e).panic.None?
    requires Asks(n0, e) !! Local(n0)
    ensures Accounts(n0, Asks(n0, e), FollowerStep(n0, e))
  {
    var n := if n0.role.leader == Some(e.from) then n0.(role := n0.role.(leaderSeen := 0)) else n0;
    var r := FollowerStep(n0, e);
    if e.message.ClientRequest? {
      if n.role.leader.Some? {
        SilentAnswers(r.out, n.id);
      } else {
        OneLocal(n.id, Respond(n, e.from, e.message.id, Abort));
      }
    } else if e.message.ClientResponse? {
      if e.message.id in n.role.forwarded {
        OneLocal(n.id, Respond(n, n.id, e.message.id, e.message.response));
      } else {
        Quiet(n0, r);
      }
    } else {
      FollowerQuiet(n0, n, e);
      Quiet(n0, r);
    }
  }

  lemma FollowerQuiet(n0: Node, n: Node, e: Envelope)
    requires Valid(n0) && n0.role.Follower? && e.term == n0.log.term && FollowerStep(n0, e).panic.None?
    requires n == if n0.role.leader == Some(e.from) then n0.(role := n0.role.(leaderSeen := 0)) else n0
    requires !e.message.ClientRequest? && !e.message.ClientResponse?
    ensures Local(FollowerStep(n0, e).node) == Local(n0) && Silent(FollowerStep(n0, e).out, n0.id)
  {
  }

  // ---------------------------------------------------------------- leaders

  /** The leader answers the local writes that it applies. */
  lemma CommitAccounts(n: Node, k: Index)
    requires Valid(n) && n.role.Leader? && n.log.commitIndex < k <= |n.log.entries| && ClientsOk(n)
    ensures Accounts(n, {}, CommitAndApply(n, k))
  {
    var r, w := CommitAndApply(n, k), n.role.writes;
    var x, lo := r.node, |n.applied|;
    assert r.out == WriteResponses(n, x.applied, lo) && x.log.entries == n.log.entries;
    assert forall i :: i in w ==> (i in x.role.writes <==> !(lo < i <= |x.applied|));
    assert forall i :: i in x.role.writes ==> i in w && x.role.writes[i] == w[i];
    assert x.id == n.id && x.role.readQueue == n.role.readQueue;
    hide Valid, CommitAndApply;
    WritesAnswered(n, x.applied, lo);
    LocalWritesSplit(n, x, AnsweredIds(r.out, n.id), lo);
    hide WriteResponses, LocalWrites, AnsweredIds, OneAnswer;
    assert LocalReads(x) == LocalReads(n);
  }

  /** The local writes are those applied since, and those that still wait. */
  lemma LocalWritesSplit(n: Node, x: Node, answered: set<RequestID>, lo: Index)
    requires n.role.Leader? && x.role.Leader? && x.id == n.id && ClientsOk(n)
    requires forall i :: i in n.role.writes ==> (i in x.role.writes <==> !(lo < i <= |x.applied|))
    requires forall i :: i in x.role.writes ==> i in n.role.writes && x.role.writes[i] == n.role.writes[i]
    requires var w := n.role.writes;
             forall id :: id in answered <==>
               exists i :: i in w && lo < i <= |x.applied| && w[i].from == n.id && w[i].id == id
    ensures answered !! LocalWrites(x) && LocalWrites(n) == answered + LocalWrites(x)
  {
    var w := n.role.writes;
    forall id | id in LocalWrites(n) ensures id in answered || id in LocalWrites(x) {
      var i :| i in w && w[i].from == n.id && w[i].id == id;
      if i in x.role.writes { assert x.role.writes[i].id in LocalWrites(x); }
    }
    forall id | id in LocalWrites(x) ensures id in LocalWrites(n) && id !in answered {
      var i :| i in x.role.writes && x.role.writes[i].from == n.id && x.role.writes[i].id == id;
      assert w[i].id in LocalWrites(n);
    }
    forall id | id in answered ensures id in LocalWrites(n) {
      var i :| i in w && lo < i <= |x.applied| && w[i].from == n.id && w[i].id == id;
      assert w[i].id in LocalWrites(n);
    }
  }

  lemma WritesAnswered(n: Node, state: seq<Entry>, lo: Index)
    requires n.role.Leader? && ClientsOk(n)
    ensures var out, w := WriteResponses(n, state, lo), n.role.writes;
            && OneAnswer(out, n.id)
            && forall id :: id in AnsweredIds(out, n.id) <==>
                exists i :: i in w && lo < i <= |state| && w[i].from == n.id && w[i].id == id
  {
    var out, w := WriteResponses(n, state, lo), n.role.writes;
    forall id ensures id in AnsweredIds(out, n.id) <==>
        exists i :: i in w && lo < i <= |state| && w[i].from == n.id && w[i].id == id {
      if i :| i in w && lo < i <= |state| && w[i].from == n.id && w[i].id == id {
        var e := Envelope(n.id, n.log.term, w[i].from, ClientResponse(w[i].id, WriteResponse(state[..i])));
        assert e in out && LocalAnswer(n.id, e);
      }
    }
  }

  /** The leader answers the local reads at the front of the queue. */
  lemma ReadsAnswered(n: Node, k: nat)
    requires n.role.Leader? && ClientsOk(n) && k <= |n.role.readQueue|
    ensures Accounts(n, {}, Effect(n.(role := n.role.(readQueue := n.role.readQueue[k..])), ReadAnswers(n, k), None))
  {
    var q, out, x := n.role.readQueue, ReadAnswers(n, k), n.(role := n.role.(readQueue := n.role.readQueue[k..]));
    assert LocalWrites(x) == LocalWrites(n);
    forall id ensures id in AnsweredIds(out, n.id) <==> exists j :: 0 <= j < k && q[j].from == n.id && q[j].id == id {
      if j :| 0 <= j < k && q[j].from == n.id && q[j].id == id {
        var e := Respond(n, q[j].from, q[j].id, ReadResponse(n.applied, q[j].command));
        assert e in out && LocalAnswer(n.id, e);
      }
    }
    forall id ensures id in LocalReads(x) <==> exists j :: k <= j < |q| && q[j].from == n.id && q[j].id == id {
      if j :| k <= j < |q| && q[j].from == n.id && q[j].id == id { assert q[k..][j - k] == q[j]; }
    }
    assert LocalReads(n) == AnsweredIds(out, n.id) + LocalReads(x);
  }

  lemma ReadAccounts(n: Node)
    requires Valid(n) && n.role.Leader? && ClientsOk(n)
    ensures Accounts(n, {}, MaybeRead(n))
  {
    var r := MaybeRead(n);
    if n.role.readQueue == [] || n.log.commitTerm < n.log.term || |n.applied| < n.log.commitIndex {
      Quiet(n, r);
    } else {
      ClusterMapSize(n);
      ReadsAnswered(n, ReadyReads(n.role.readQueue, QuorumValue(ReadSeqs(n), QuorumSize(n))));
    }
  }

  lemma MaybeCommitAccounts(n: Node)
    requires Valid(n) && n.role.Leader? && ClientsOk(n)
    ensures Accounts(n, {}, MaybeCommitAndApply(n))
  {
    var k := QuorumIndex(n);
    CommitCases(n, k);
    hide Valid, QuorumIndex, CommitAndApply, MaybeRead, MaybeCommitAndApply, Accounts;
    if k <= n.log.commitIndex || n.log.entries[k - 1].term != n.log.term {
      NoChange(n, {});
    } else {
      CommitAccounts(n, k);
      var c := CommitAndApply(n, k);
      if n.log.commitTerm != n.log.term {
        AccountsId(n, {}, c);
        ReadAccounts(c.node);
        MaybeReadPanic(c.node);
        Both(n, {}, c, MaybeRead(c.node));
      }
    }
  }

  lemma MaybeReadPanic(n: Node)
    requires Valid(n) && n.role.Leader?
    ensures MaybeRead(n).panic == None
  {
  }

  /** A change of progress before another effect. */
  lemma AfterTweak(n: Node, x: Node, r: Effect)
    requires n.role.Leader? && x.role.Leader? && ClientsOk(n) && x == n.(role := n.role.(progress := x.role.progress))
    requires Accounts(x, {}, r)
    ensures Accounts(n, {}, r)
  {
    assert LocalWrites(x) == LocalWrites(n) && LocalReads(x) == LocalReads(n);
  }

  lemma TweakOk(n: Node, x: Node)
    requires n.role.Leader? && x.role.Leader? && ClientsOk(n) && x == n.(role := n.role.(progress := x.role.progress))
    ensures ClientsOk(x) && Local(x) == Local(n)
  {
    assert LocalWrites(x) == LocalWrites(n) && LocalReads(x) == LocalReads(n);
  }

  lemma SendAccounts(n: Node, peer: NodeID, probe: bool)
    requires Valid(n) && n.role.Leader? && peer in n.peers && ClientsOk(n)
    ensures Accounts(n, {}, MaybeSendAppend(n, peer, probe))
  {
    var r := MaybeSendAppend(n, peer, probe);
    TweakOk(n, r.node);
    Quiet(n, r);
  }

  lemma ConfirmAccounts(n: Node, peer: NodeID, q: nat)
    requires Valid(n) && n.role.Leader? && peer in n.peers && ClientsOk(n)
    ensures Accounts(n, {}, LeaderConfirm(n, peer, q))
  {
    var a := AdvanceRead(n.role.progress[peer], q);
    if a.None? { Quiet(n, LeaderConfirm(n, peer, q)); }
    else {
      var x := SetProgress(n, peer, a.value);
      TweakOk(n, x);
      ReadAccounts(x);
      AfterTweak(n, x, MaybeRead(x));
    }
  }

  lemma MatchAccounts(n: Node, peer: NodeID, k: Index)
    requires Valid(n) && n.role.Leader? && peer in n.peers && k <= |n.log.entries| && ClientsOk(n)
    ensures Accounts(n, {}, LeaderMatch(n, peer, k))
  {
    var a := Advance(n.role.progress[peer], k);
    if a.None? { Quiet(n, LeaderMatch(n, peer, k)); }
    else {
      var x := SetProgress(n, peer, a.value);
      TweakOk(n, x);
      MaybeCommitAccounts(x);
      AfterTweak(n, x, MaybeCommitAndApply(x));
    }
  }

  lemma ProbeAccounts(n: Node, peer: NodeID, next: Index, force: bool)
    requires Valid(n) && n.role.Leader? && peer in n.peers && next <= |n.log.entries| && ClientsOk(n)
    ensures Accounts(n, {}, LeaderProbe(n, peer, next, force))
  {
    var a := RegressNext(n.role.progress[peer], next);
    if a.Some? {
      var x := SetProgress(n, peer, a.value);
      TweakOk(n, x);
      SendAccounts(x, peer, true);
      AfterTweak(n, x, MaybeSendAppend(x, peer, true));
    } else if force {
      SendAccounts(n, peer, true);
    } else {
      Quiet(n, LeaderProbe(n, peer, next, force));
    }
  }

  lemma HeartbeatResponseAccounts(n: Node, e: Envelope)
    requires Valid(n) && n.role.Leader? && e.message.HeartbeatResponse? && ClientsOk(n)
    requires LeaderHeartbeatResponse(n, e).panic.None?
    ensures Accounts(n, {}, LeaderHeartbeatResponse(n, e))
  {
    var m, last := e.message, |n.log.entries|;
    var a := LeaderConfirm(n, e.from, m.hbConfirmSeq);
    ConfirmAccounts(n, e.from, m.hbConfirmSeq);
    var b := if m.hbMatchIndex == 0 then LeaderProbe(a.node, e.from, last, true) else Effect(a.node, {}, None);
    if m.hbMatchIndex == 0 { ProbeAccounts(a.node, e.from, last, true); } else { Quiet(a.node, b); }
    var c := LeaderMatch(b.node, e.from, m.hbMatchIndex);
    MatchAccounts(b.node, e.from, m.hbMatchIndex);
    assert LeaderHeartbeatResponse(n, e) == Effect(c.node, (a.out + b.out) + c.out, c.panic);
    hide *;
    Both(n, {}, a, b);
    Both(n, {}, Effect(b.node, a.out + b.out, b.panic), c);
  }

  lemma AppendResponseAccounts(n: Node, e: Envelope)
    requires Valid(n) && n.role.Leader? && e.message.AppendResponse? && ClientsOk(n)
    requires LeaderAppendResponse(n, e).panic.None?
    ensures Accounts(n, {}, LeaderAppendResponse(n, e))
  {
    var m, r := e.message, LeaderAppendResponse(n, e);
    if m.rejectIndex == 0 {
      var a := LeaderMatch(n, e.from, m.matchIndex);
      MatchAccounts(n, e.from, m.matchIndex);
      SendAccounts(a.node, e.from, false);
      var b := MaybeSendAppend(a.node, e.from, false);
      assert r == Effect(b.node, a.out + b.out, b.panic);
      hide *;
      Both(n, {}, a, b);
    } else if m.rejectIndex <= n.role.progress[e.from].matchIndex {
      Quiet(n, r);
    } else {
      ProbeAccounts(n, e.from, m.rejectIndex, false);
    }
  }

  /** The write on record, before anything is committed. */
  function WriteQueued(n: Node, from: NodeID, id: RequestID, command: Command): Effect
    requires Valid(n) && n.role.Leader?
  {
    var p := ProposeAs(n, Some(command));
    Effect(p.node.(role := p.node.role.(writes := p.node.role.writes[|p.node.log.entries| := Write(from, id)])), p.out,
        None)
  }

  lemma WriteCases(n: Node, from: NodeID, id: RequestID, command: Command)
    requires Valid(n) && n.role.Leader?
    ensures var a := WriteQueued(n, from, id, command);
            && Valid(a.node) && a.node.role.Leader? && a.node.id == n.id && Silent(a.out, n.id)
            && a.node.role.writes == n.role.writes[|n.log.entries| + 1 := Write(from, id)] &&
                a.node.role.readQueue == n.role.readQueue
            && |a.node.log.entries| == |n.log.entries| + 1
            && LeaderWrite(n, from, id, command) ==
                 if |n.peers| == 0 then
                   Effect(MaybeCommitAndApply(a.node).node, a.out + MaybeCommitAndApply(a.node).out,
                       MaybeCommitAndApply(a.node).panic)
                 else a
  {
  }

  lemma AskedAccounts(n: Node, asked: set<RequestID>, a: Effect)
    requires a.node.id == n.id && ClientsOk(a.node) && Local(a.node) == Local(n) + asked && Silent(a.out, n.id)
    ensures Accounts(n, asked, a)
  {
    SilentAnswers(a.out, n.id);
  }

  lemma WriteAccounts(n: Node, from: NodeID, id: RequestID, command: Command)
    requires Valid(n) && n.role.Leader? && ClientsOk(n) && (from == n.id ==> id !in Local(n))
    ensures Accounts(n, if from == n.id then {id} else {}, LeaderWrite(n, from, id, command))
  {
    hide *;
    var a, asked := WriteQueued(n, from, id, command), if from == n.id then {id} else {};
    WriteCases(n, from, id, command);
    Registered(n, a.node, |n.log.entries| + 1, from, id);
    AskedAccounts(n, asked, a);
    if |n.peers| == 0 {
      MaybeCommitAccounts(a.node);
      Both(n, asked, a, MaybeCommitAndApply(a.node));
    }
  }

  lemma Registered(n: Node, x: Node, index: Index, from: NodeID, id: RequestID)
    requires n.role.Leader? && x.role.Leader? && ClientsOk(n) && (from == n.id ==> id !in Local(n)) && x.id == n.id
    requires index == |n.log.entries| + 1 == |x.log.entries|
    requires x.role.writes == n.role.writes[index := Write(from, id)] && x.role.readQueue == n.role.readQueue
    ensures ClientsOk(x) && Local(x) == Local(n) + if from == n.id then {id} else {}
  {
    var w, w' := n.role.writes, x.role.writes;
    assert LocalReads(x) == LocalReads(n) && index !in w;
    forall i | i in w && w[i].from == n.id ensures w[i].id in LocalWrites(n) { }
    forall j ensures j in LocalWrites(x) <==> j in LocalWrites(n) || (from == n.id && j == id) {
      if j in LocalWrites(n) {
        var i :| i in w && w[i].from == n.id && w[i].id == j;
        assert w'[i].id in LocalWrites(x);
      }
      if from == n.id && j == id { assert w'[index].id in LocalWrites(x); }
      if j in LocalWrites(x) { var i :| i in w' && w'[i].from == n.id && w'[i].id == j; }
    }
  }

  /** The read in the queue, before any is answered. */
  function ReadQueued(n: Node, from: NodeID, id: RequestID, command: Command): Effect
    requires n.role.Leader?
  {
    var q := n.role.readSeq + 1;
    Effect(n.(role := n.role.(readSeq := q, readQueue := n.role.readQueue + [Read(q, from, id, command)])),
        Broadcast(n, ReadConfirm(q)), None)
  }

  lemma ReadCases(n: Node, from: NodeID, id: RequestID, command: Command)
    requires Valid(n) && n.role.Leader?
    ensures var a := ReadQueued(n, from, id, command);
            && Valid(a.node) && a.node.role.Leader? && a.node.id == n.id && a.node.log == n.log && Silent(a.out, n.id)
            && a.node.role.writes == n.role.writes
            && a.node.role.readQueue == n.role.readQueue + [Read(n.role.readSeq + 1, from, id, command)]
            && LeaderRead(n, from, id, command) ==
                 if |n.peers| == 0 then Effect(MaybeRead(a.node).node, a.out + MaybeRead(a.node).out,
                     MaybeRead(a.node).panic) else a
  {
  }

  lemma LeaderReadAccounts(n: Node, from: NodeID, id: RequestID, command: Command)
    requires Valid(n) && n.role.Leader? && ClientsOk(n) && (from == n.id ==> id !in Local(n))
    ensures Accounts(n, if from == n.id then {id} else {}, LeaderRead(n, from, id, command))
  {
    hide *;
    var a, asked := ReadQueued(n, from, id, command), if from == n.id then {id} else {};
    ReadCases(n, from, id, command);
    Queued(n, a.node, Read(n.role.readSeq + 1, from, id, command));
    AskedAccounts(n, asked, a);
    if |n.peers| == 0 {
      ReadAccounts(a.node);
      Both(n, asked, a, MaybeRead(a.node));
    }
  }

  lemma Queued(n: Node, x: Node, q: Read)
    requires n.role.Leader? && x.role.Leader? && ClientsOk(n) && (q.from == n.id ==> q.id !in Local(n)) &&
        x.id == n.id && x.log == n.log
    requires x.role.writes == n.role.writes && x.role.readQueue == n.role.readQueue + [q]
    ensures ClientsOk(x) && Local(x) == Local(n) + if q.from == n.id then {q.id} else {}
  {
    var a, b := n.role.readQueue, x.role.readQueue;
    assert LocalWrites(x) == LocalWrites(n);
    forall j | 0 <= j < |a| && a[j].from == n.id ensures a[j].id in LocalReads(n) { }
    forall id ensures id in LocalReads(x) <==> id in LocalReads(n) || (q.from == n.id && id == q.id) {
      if id in LocalReads(n) {
        var j :| 0 <= j < |a| && a[j].from == n.id && a[j].id == id;
        assert b[j].id in LocalReads(x);
      }
      if q.from == n.id && id == q.id { assert b[|a|].id in LocalReads(x); }
      if id in LocalReads(x) { var j :| 0 <= j < |b| && b[j].from == n.id && b[j].id == id; }
    }
  }

  lemma ClientRequestAccounts(n: Node, e: Envelope)
    requires Valid(n) && n.role.Leader? && e.message.ClientRequest? && ClientsOk(n) && Asks(n, e) !! Local(n)
    ensures Accounts(n, Asks(n, e), LeaderClientRequest(n, e))
  {
    var id := e.message.id;
    match e.message.request
    case WriteRequest(command) =>
      hide LeaderWrite, Accounts, ClientsOk, Valid;
      WriteAccounts(n, e.from, id, command);
    case ReadRequest(command) =>
      hide LeaderRead, Accounts, ClientsOk, Valid;
      LeaderReadAccounts(n, e.from, id, command);
    case StatusRequest =>
      var answer := Respond(n, e.from, id, Status(n));
      if e.from == n.id { OneLocal(n.id, answer); } else { SilentAnswers({answer}, n.id); }
  }

  lemma LeaderAccounts(n: Node, e: Envelope)
    requires Valid(n) && n.role.Leader? && e.term == n.log.term && ClientsOk(n) && LeaderStep(n, e).panic.None?
    requires Asks(n, e) !! Local(n)
    ensures Accounts(n, Asks(n, e), LeaderStep(n, e))
  {
    hide Accounts, ClientsOk, Valid, Local, LeaderHeartbeatResponse, LeaderAppendResponse, LeaderConfirm,
        LeaderClientRequest, Silent;
    match e.message
    case HeartbeatResponse(_, _) => HeartbeatResponseAccounts(n, e);
    case AppendResponse(_, _) => AppendResponseAccounts(n, e);
    case ReadConfirmed(q) => ConfirmAccounts(n, e.from, q);
    case Campaign(_, _) => NoChange(n, {Mail(n, e.from, CampaignResponse(false))});
    case CampaignResponse(_) => NoChange(n, {});
    case ClientRequest(_, _) => ClientRequestAccounts(n, e);
  }

  lemma NoChange(n: Node, out: set<Envelope>)
    requires ClientsOk(n) && forall e :: e in out ==> !e.message.ClientResponse?
    ensures Accounts(n, {}, Effect(n, out, None))
  {
    Quiet(n, Effect(n, out, None));
  }

  // ---------------------------------------------------------------- any node

  lemma IntoLeaderAccounts(n: Node)
    requires Valid(n) && n.role.Candidate?
    ensures Accounts(n, {}, IntoLeader(n))
  {
    var p := Promote(n);
    PromoteAccounts(n);
    var c := MaybeCommitAndApply(p.node);
    MaybeCommitAccounts(p.node);
    var d := SendHeartbeat(c.node);
    HeartbeatAccounts(c.node);
    assert IntoLeader(n) == Effect(d.node, (p.out + c.out) + d.out, d.panic);
    hide *;
    Both(n, {}, p, c);
    Both(n, {}, Effect(c.node, p.out + c.out, c.panic), d);
  }

  lemma PromoteAccounts(n: Node)
    requires Valid(n) && n.role.Candidate?
    ensures Accounts(n, {}, Promote(n)) && ClientsOk(Promote(n).node)
  {
    var p := Promote(n);
    assert p.node.role.writes == map[] && p.node.role.readQueue == [] && Silent(p.out, n.id);
    hide Promote;
    assert LocalWrites(p.node) == {} && LocalReads(p.node) == {};
    Quiet(n, p);
  }

  lemma HeartbeatAccounts(n: Node)
    requires Valid(n) && n.role.Leader? && ClientsOk(n)
    ensures Accounts(n, {}, SendHeartbeat(n))
  {
    var r := SendHeartbeat(n);
    assert LocalWrites(r.node) == LocalWrites(n) && LocalReads(r.node) == LocalReads(n);
    Quiet(n, r);
  }

  lemma CandidateAccounts(n: Node, e: Envelope, timeout: nat)
    requires Valid(n) && n.role.Candidate? && e.term == n.log.term && CandidateStep(n, e, timeout).panic.None?
    requires e.from == n.id ==> e.message.ClientRequest?
    ensures Accounts(n, Asks(n, e), CandidateStep(n, e, timeout))
  {
    var r, x := CandidateStep(n, e, timeout), n.(role := Follower(Some(e.from), 0, timeout, {}));
    if e.message.CampaignResponse? {
      var y := n.(role := n.role.(votes := n.role.votes + {e.from}));
      if e.message.vote && |y.role.votes| >= QuorumSize(n) {
        IntoLeaderAccounts(y);
        assert Local(y) == Local(n);
      } else {
        Quiet(n, r);
      }
    } else if e.message.Campaign? {
      Quiet(n, r);
    } else if e.message.ClientRequest? {
      var answer := Respond(n, e.from, e.message.id, Abort);
      if e.from == n.id { OneLocal(n.id, answer); } else { SilentAnswers({answer}, n.id); }
    } else if e.message.Heartbeat? || e.message.Append? || e.message.ReadConfirm? {
      assert r == FollowerStep(x, e) && Local(x) == Local(n) == {};
      FollowerAccounts(x, e);
    }
  }

  /** Every step of a node accounts for its local requests. */
  lemma StepAccounts(n: Node, e: Envelope, timeout: nat)
    requires Valid(n) && !n.role.Halted? && ClientsOk(n) && Step(n, e, timeout).panic.None?
    requires e.from == n.id ==> e.message.ClientRequest? && e.term == n.log.term
    requires Asks(n, e) !! Local(n)
    ensures Accounts(n, Asks(n, e), Step(n, e, timeout))
  {
    hide Accounts, ClientsOk, Local, FollowerStep, CandidateStep, LeaderStep, NewTerm;
    if e.term < n.log.term {
      NoChange(n, {});
    } else if e.term > n.log.term {
      NewTermAccounts(n, e.term, timeout);
      var t := NewTerm(n, e.term, timeout);
      AccountsId(n, {}, t);
      FollowerAccounts(t.node, e);
      Both(n, {}, t, FollowerStep(t.node, e));
    } else {
      match n.role
      case Follower(_, _, _, _) => FollowerAccounts(n, e);
      case Candidate(_, _, _) => CandidateAccounts(n, e, timeout);
      case Leader(_, _, _, _, _) => LeaderAccounts(n, e);
    }
  }

  lemma AccountsId(n: Node, asked: set<RequestID>, r: Effect)
    requires Accounts(n, asked, r)
    ensures r.node.id == n.id && ClientsOk(r.node)
  {
  }

  lemma TickAccounts(n: Node, timeout: nat)
    requires Valid(n) && !n.role.Halted? && ClientsOk(n)
    ensures Accounts(n, {}, Tick(n, timeout))
  {
    match n.role
    case Follower(_, seen, limit, forwarded) =>
      if seen + 1 >= limit {
        var x := n.(role := n.role.(leaderSeen := seen + 1));
        CampaignAccounts(x, timeout);
        assert Local(x) == Local(n);
      } else { Quiet(n, Tick(n, timeout)); }
    case Candidate(_, _, _) => Quiet(n, Tick(n, timeout));
    case Leader(_, _, _, _, since) =>
      var x := n.(role := n.role.(sinceHeartbeat := since + 1));
      assert LocalWrites(x) == LocalWrites(n) && LocalReads(x) == LocalReads(n);
      if since + 1 >= n.opts.heartbeatInterval { HeartbeatAccounts(x); } else { Quiet(n, Tick(n, timeout)); }
  }

  lemma CampaignAccounts(n: Node, timeout: nat)
    requires Valid(n) && n.role.Follower?
    ensures Accounts(n, {}, IntoCandidate(n, timeout))
  {
    var c := StartCampaign(n.(applied := ApplyCommitted(n.log, n.applied)), timeout);
    AbortsAll(n, n.role.forwarded);
    assert Silent(c.out, n.id);
    SilentAnswers(c.out, n.id);
    AnsweredTogether(AbortAll(n, n.role.forwarded), c.out, n.id);
  }

  // ---------------------------------------------------------------- whole runs

  /** The node an event happens to. */
  function Target(ev: Event): NodeID {
    match ev
    case Deliver(e, _) => e.to
    case Clock(i, _) => i
    case Submit(i, _, _, _) => i
    case Restart(i, _, _, _) => i
  }

  /** What the event does to that node, unless it is a restart. */
  ghost function EffectOf(c: Cluster, ev: Event): Effect
    requires Runs(c, Target(ev)) && !ev.Restart?
  {
    var n := c.nodes[Target(ev)];
    match ev
    case Deliver(e, timeout) => Step(n, e, timeout)
    case Clock(_, timeout) => Tick(n, timeout)
    case Submit(i, id, body, timeout) => Step(n, Envelope(i, n.log.term, i, ClientRequest(id, body)), timeout)
  }

  lemma NextEffect(c: Cluster, ev: Event, c': Cluster)
    requires Next(c, ev, c') && !ev.Restart?
    ensures Runs(c, Target(ev)) && c' == Install(c, Target(ev), EffectOf(c, ev))
  {
  }

  /** What node i sends at step k. */
  ghost function SentAt(r: Run, k: nat, i: NodeID): set<Envelope>
    requires ValidRun(r) && k < |r.events|
  {
    if Target(r.events[k]) == i && !r.events[k].Restart? && Runs(r.states[k], i) then
      EffectOf(r.states[k], r.events[k]).out
    else {}
  }

  /** The requests that node i answers at step k. */
  ghost function AnsweredAt(r: Run, k: nat, i: NodeID): set<RequestID>
    requires ValidRun(r) && k < |r.events|
  {
    AnsweredIds(SentAt(r, k, i), i)
  }

  /** The requests that are submitted to node i at step k. */
  function AskedAt(r: Run, k: nat, i: NodeID): set<RequestID>
    requires k < |r.events|
  {
    if r.events[k].Submit? && r.events[k].id == i then {r.events[k].request} else {}
  }

  /** No two requests share an id. */
  ghost predicate UniqueIds(r: Run) {
    forall j, k :: 0 <= j < k < |r.events| && r.events[j].Submit? && r.events[k].Submit? ==>
        r.events[j].request != r.events[k].request
  }

  /** The pending requests of node i at moment k were submitted to it before. */
  ghost predicate PendingOk(r: Run, k: nat, i: NodeID)
    requires At(r, k, i) && |r.states| == |r.events| + 1
  {
    && ClientsOk(NodeAt(r, k, i))
    && forall id :: id in Local(NodeAt(r, k, i)) ==> exists j :: 0 <= j < k && AskedAt(r, j, i) == {id}
  }

  lemma StartPending(r: Run, i: NodeID)
    requires At(r, 0, i) && |r.states| == |r.events| + 1
    ensures PendingOk(r, 0, i) && Local(NodeAt(r, 0, i)) == {}
  {
    var n := NodeAt(r, 0, i);
    assert Fresh(r.states[0], i);
    var peers := r.states[0].nodes.Keys - {i};
    var timeout: nat :| n == NewNode(i, peers, n.opts, EMPTY_LOG, [], timeout).node;
    NewNodeSilent(i, peers, n.opts, timeout);
  }

  lemma NewNodeSilent(i: NodeID, peers: set<NodeID>, opts: Options, timeout: nat)
    requires i !in peers
    ensures var n := NewNode(i, peers, opts, EMPTY_LOG, [], timeout).node; ClientsOk(n) && Local(n) == {}
  {
    if |peers| == 0 {
      var c := SelfCandidate(i, peers, opts, timeout);
      hide IntoLeader, NewNode, Valid, Accounts, ClientsOk, Local;
      IntoLeaderAccounts(c);
      NothingLocal(c, IntoLeader(c));
    }
  }

  lemma SelfCandidate(i: NodeID, peers: set<NodeID>, opts: Options, timeout: nat) returns (c: Node)
    requires i !in peers && |peers| == 0
    ensures Valid(c) && c.role.Candidate? && Local(c) == {}
    ensures NewNode(i, peers, opts, EMPTY_LOG, [], timeout).node == IntoLeader(c).node
  {
    var n := Node(i, peers, opts, EMPTY_LOG, ApplyCommitted(EMPTY_LOG, []), Follower(None, 0, timeout, {}));
    c := IntoCandidate(n, timeout).node;
    hide IntoLeader;
  }

  lemma NothingLocal(n: Node, r: Effect)
    requires Accounts(n, {}, r) && Local(n) == {}
    ensures ClientsOk(r.node) && Local(r.node) == {}
  {
  }

  /** One step of the run, seen from node i. */
  lemma StepPending(r: Run, k: nat, i: NodeID)
    requires At(r, k, i) && At(r, k + 1, i) && i !in Excused(r) && |r.states| == |r.events| + 1 && UniqueIds(r)
    requires PendingOk(r, k, i)
    requires NodeAt(r, k, i).id == i && !NodeAt(r, k + 1, i).role.Halted?
    requires !(r.events[k].Restart? && r.events[k].id == i)
    ensures ClientsOk(NodeAt(r, k + 1, i)) && OneAnswer(SentAt(r, k, i), i)
    ensures AnsweredAt(r, k, i) !! Local(NodeAt(r, k + 1, i))
    ensures AnsweredAt(r, k, i) + Local(NodeAt(r, k + 1, i)) == Local(NodeAt(r, k, i)) + AskedAt(r, k, i)
  {
    var c, ev, c' := r.states[k], r.events[k], r.states[k + 1];
    StepOf(r, k);
    if ev.Restart? || Target(ev) != i {
      OtherNode(c, ev, c', i);
    } else {
      NextEffect(c, ev, c');
      var n := c.nodes[i];
      NewIds(r, k, i);
      hide ValidRun, Next, Local, Accounts, Step, Tick, Excused;
      if ev.Clock? {
        TickAccounts(n, ev.timeout);
        Accounted(n, {}, Tick(n, ev.timeout));
      } else {
        var e := if ev.Deliver? then ev.envelope else Envelope(i, n.log.term, i, ClientRequest(ev.request, ev.body));
        DeliveredFrom(r, k);
        StepAccounts(n, e, ev.timeout);
        Accounted(n, Asks(n, e), Step(n, e, ev.timeout));
      }
    }
  }

  lemma Accounted(n: Node, asked: set<RequestID>, r: Effect)
    requires Accounts(n, asked, r)
    ensures ClientsOk(r.node) && OneAnswer(r.out, n.id) && AnsweredIds(r.out, n.id) !! Local(r.node)
    ensures AnsweredIds(r.out, n.id) + Local(r.node) == Local(n) + asked
  {
  }

  lemma DeliveredFrom(r: Run, k: nat)
    requires ValidRun(r) && k < |r.events|
    ensures r.events[k].Deliver? ==> r.events[k].envelope.from != r.events[k].envelope.to
  {
    StepOf(r, k);
  }

  lemma OtherNode(c: Cluster, ev: Event, c': Cluster, i: NodeID)
    requires Next(c, ev, c') && Target(ev) != i && i in c.nodes
    ensures i in c'.nodes && c'.nodes[i] == c.nodes[i]
  {
  }

  lemma NewIds(r: Run, k: nat, i: NodeID)
    requires At(r, k, i) && |r.states| == |r.events| + 1 && k < |r.events| && UniqueIds(r) && PendingOk(r, k, i)
    ensures AskedAt(r, k, i) !! Local(NodeAt(r, k, i))
  {
    hide ValidRun, Local, ClientsOk, AskedAt;
    forall id | id in Local(NodeAt(r, k, i)) ensures id !in AskedAt(r, k, i) {
      var j :| 0 <= j < k && AskedAt(r, j, i) == {id};
      AskedOnce(r, j, k, i, id);
    }
  }

  lemma RestartExcuses(r: Run, k: nat)
    requires ValidRun(r) && k < |r.events| && r.events[k].Restart? && r.events[k].id in r.states[0].nodes
    ensures r.events[k].id in Excused(r)
  {
    assert Restarts(r, r.events[k].id);
  }

  /** A node that does not restart and sends entries keeps its id and its place. */
  lemma Stable(r: Run, k: nat, i: NodeID)
    requires At(r, 0, i) && k < |r.states| && i !in Excused(r)
    ensures At(r, k, i) && NodeAt(r, k, i).id == i && !NodeAt(r, k, i).role.Halted? && |r.states| == |r.events| + 1
    ensures k < |r.events| ==> !(r.events[k].Restart? && r.events[k].id == i)
  {
    hide *;
    RunShape(r, i);
    var hs := TraceOf(r);
    LaterHistory(r, hs, 0, k);
    KeepsPlace(r, hs, k, i);
    NodeInvariant(r, hs, k, i);
    GoodId(hs[k], i, NodeAt(r, k, i));
    NeverPanics(r, k, i);
    if k < |r.events| && r.events[k].Restart? { RestartMatters(r, k, i); }
  }

  lemma RunShape(r: Run, i: NodeID)
    requires At(r, 0, i)
    ensures ValidRun(r) && |r.states| == |r.events| + 1 && i in r.states[0].nodes
  {
  }

  lemma RestartMatters(r: Run, k: nat, i: NodeID)
    requires ValidRun(r) && k < |r.events| && r.events[k].Restart? && i in r.states[0].nodes
    ensures r.events[k].id == i ==> i in Excused(r)
  {
    if r.events[k].id == i { RestartExcuses(r, k); }
  }

  lemma KeepsPlace(r: Run, hs: seq<History>, k: nat, i: NodeID)
    requires ValidRun(r) && 0 < |hs| == |r.states| && k < |hs| && i in r.states[0].nodes
    requires Later(r.states[0], hs[0], r.states[k], hs[k])
    ensures At(r, k, i)
  {
  }

  lemma GoodId(h: History, i: NodeID, n: Node)
    requires Good(h, i, n)
    ensures n.id == i
  {
  }

  lemma {:induction false} Pending(r: Run, k: nat, i: NodeID)
    requires At(r, 0, i) && k < |r.states| && i !in Excused(r) && UniqueIds(r)
    ensures At(r, k, i) && |r.states| == |r.events| + 1 && PendingOk(r, k, i)
  {
    hide *;
    RunShape(r, i);
    Stable(r, k, i);
    if k == 0 {
      StartPending(r, i);
    } else {
      Pending(r, k - 1, i);
      Stable(r, k - 1, i);
      StepPending(r, k - 1, i);
      MorePending(r, k - 1, i);
    }
  }

  lemma MorePending(r: Run, c: nat, i: NodeID)
    requires At(r, c, i) && At(r, c + 1, i) && |r.states| == |r.events| + 1 && PendingOk(r, c, i)
    requires ClientsOk(NodeAt(r, c + 1, i))
    requires Local(NodeAt(r, c + 1, i)) <= Local(NodeAt(r, c, i)) + AskedAt(r, c, i)
    ensures PendingOk(r, c + 1, i)
  {
    hide ValidRun, Local, ClientsOk;
    forall id | id in Local(NodeAt(r, c + 1, i)) ensures exists j :: 0 <= j < c + 1 && AskedAt(r, j, i) == {id} {
      if id in Local(NodeAt(r, c, i)) {
        var j :| 0 <= j < c && AskedAt(r, j, i) == {id};
      } else {
        assert AskedAt(r, c, i) == {id};
      }
    }
  }

  /** The request is pending and never answered, or not pending and answered at one step, with
      one message. */
  ghost predicate Settled(r: Run, m: nat, k: nat, i: NodeID, id: RequestID)
    requires At(r, k, i) && |r.states| == |r.events| + 1
  {
    if id in Local(NodeAt(r, k, i)) then
      forall j :: m <= j < k ==> id !in AnsweredAt(r, j, i)
    else
      exists j :: m <= j < k && AnsweredOnlyAt(r, m, k, i, id, j) && OneAnswer(SentAt(r, j, i), i)
  }

  ghost predicate AnsweredOnlyAt(r: Run, m: nat, k: nat, i: NodeID, id: RequestID, j: nat)
    requires ValidRun(r) && k <= |r.events|
  {
    forall l :: m <= l < k ==> (id in AnsweredAt(r, l, i) <==> l == j)
  }

  /** Client requests: in every run with distinct request ids, a request submitted to a node
      that does not restart is at every later moment either pending there and not answered
      yet, or not pending and answered at exactly one step, with exactly one message. */
  lemma {:induction false} AnsweredOnce(r: Run, m: nat, k: nat, i: NodeID, id: RequestID)
    requires At(r, 0, i) && m < k < |r.states| && i !in Excused(r) && UniqueIds(r)
    requires |r.states| == |r.events| + 1 && AskedAt(r, m, i) == {id}
    ensures At(r, k, i) && Settled(r, m, k, i, id)
    decreases k
  {
    hide *;
    RunShape(r, i);
    var c := k - 1;
    Stable(r, k, i);
    Stable(r, c, i);
    Pending(r, c, i);
    StepPending(r, c, i);
    if c == m {
      NewIds(r, c, i);
      SettledFirst(r, m, i, id);
    } else {
      AnsweredOnce(r, m, c, i, id);
      AskedOnce(r, m, c, i, id);
      SettledNext(r, m, c, i, id);
    }
  }

  lemma SettledFirst(r: Run, m: nat, i: NodeID, id: RequestID)
    requires At(r, m, i) && At(r, m + 1, i) && |r.states| == |r.events| + 1 && AskedAt(r, m, i) == {id}
    requires AnsweredAt(r, m, i) !! Local(NodeAt(r, m + 1, i)) && OneAnswer(SentAt(r, m, i), i)
    requires AnsweredAt(r, m, i) + Local(NodeAt(r, m + 1, i)) == Local(NodeAt(r, m, i)) + AskedAt(r, m, i)
    ensures Settled(r, m, m + 1, i, id)
  {
    hide ValidRun, Local, AnsweredAt, AskedAt, SentAt, OneAnswer;
    assert id in AnsweredAt(r, m, i) + Local(NodeAt(r, m + 1, i));
    if id !in Local(NodeAt(r, m + 1, i)) { assert AnsweredOnlyAt(r, m, m + 1, i, id, m); }
  }

  lemma SettledNext(r: Run, m: nat, c: nat, i: NodeID, id: RequestID)
    requires m < c && At(r, c, i) && At(r, c + 1, i) && |r.states| == |r.events| + 1 && Settled(r, m, c, i, id)
    requires id !in AskedAt(r, c, i)
    requires AnsweredAt(r, c, i) !! Local(NodeAt(r, c + 1, i)) && OneAnswer(SentAt(r, c, i), i)
    requires AnsweredAt(r, c, i) + Local(NodeAt(r, c + 1, i)) == Local(NodeAt(r, c, i)) + AskedAt(r, c, i)
    ensures Settled(r, m, c + 1, i, id)
  {
    hide ValidRun, Local, AnsweredAt, AskedAt, SentAt, OneAnswer;
    var k := c + 1;
    assert id in AnsweredAt(r, c, i) + Local(NodeAt(r, k, i)) <==> id in Local(NodeAt(r, c, i));
    if id in Local(NodeAt(r, c, i)) {
      if id !in Local(NodeAt(r, k, i)) { assert AnsweredOnlyAt(r, m, k, i, id, c); }
    } else {
      var j :| m <= j < c && AnsweredOnlyAt(r, m, c, i, id, j) && OneAnswer(SentAt(r, j, i), i);
      assert AnsweredOnlyAt(r, m, k, i, id, j);
    }
  }

  lemma AskedOnce(r: Run, m: nat, c: nat, i: NodeID, id: RequestID)
    requires UniqueIds(r) && m < c < |r.events| && AskedAt(r, m, i) == {id}
    ensures id !in AskedAt(r, c, i)
  {
    assert id in AskedAt(r, m, i);
  }
}
