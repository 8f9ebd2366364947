/** The Raft log (src/raft/log.rs) as a value: a sequence of entries with the stored term,
    vote and commit index. `RaftLogStore` shows that the key/value implementation computes
    exactly these operations. */
module RaftLog {
  import opened Basics
  import opened RaftMessage

  datatype LogState = LogState(
    entries: seq<Entry>,
    term: Term,
    vote: Option<NodeID>,
    commitIndex: Index,
    commitTerm: Term)

  const EMPTY_LOG := LogState([], 0, None, 0, 0)

  /** Why a log operation stops the node. */
  datatype SplicePanic =
    | ZeroEntry
    | NotContiguous
    | TermRegression
    | BeyondTerm
    | BelowBaseTerm
    | Detached
    | CommandMismatch
    | BelowCommit

  function LastTerm(es: seq<Entry>): Term {
    if es == [] then 0 else es[|es| - 1].term
  }

  /** Term of the entry at `index`, 0 if there is none. */
  function TermAt(es: seq<Entry>, index: Index): Term {
    if 1 <= index <= |es| then es[index - 1].term else 0
  }

  /** The log holds an entry with this index and term. */
  predicate Has(es: seq<Entry>, index: Index, term: Term) {
    1 <= index <= |es| && es[index - 1].term == term
  }

  predicate Ordered(es: seq<Entry>, j: nat, k: nat)
    requires j <= k < |es|
  {
    es[j].term <= es[k].term
  }

  predicate TermsNondecreasing(es: seq<Entry>) {
    forall j, k {:trigger Ordered(es, j, k)} :: 0 <= j <= k < |es| ==> Ordered(es, j, k)
  }

  /** Indexes are contiguous from 1; terms are positive and never decrease. */
  ghost predicate Sorted(es: seq<Entry>) {
    && (forall k :: 0 <= k < |es| ==> es[k].index == k + 1 && es[k].term > 0)
    && TermsNondecreasing(es)
  }

  /** The documented invariants of a stored log. */
  ghost predicate WellFormed(l: LogState) {
    && Sorted(l.entries)
    && LastTerm(l.entries) <= l.term
    && l.commitIndex <= |l.entries|
    && l.commitTerm == TermAt(l.entries, l.commitIndex)
  }

  /** Stores the current term and vote. A term never regresses and a vote never changes
      within a term. */
  function SetTermVote(l: LogState, term: Term, vote: Option<NodeID>): (r: LogState)
    requires term > 0
    requires term >= l.term
    requires term > l.term || l.vote.None? || vote == l.vote
    ensures WellFormed(l) ==> WellFormed(r)
  {
    l.(term := term, vote := vote)
  }

  /** Appends a command at the current term. */
  function AppendCommand(l: LogState, command: Option<Command>): (r: LogState)
    requires l.term > 0
    ensures WellFormed(l) ==> WellFormed(r)
  {
    var e := Entry(|l.entries| + 1, l.term, command);
    assert WellFormed(l) ==> Sorted(l.entries + [e]) by {
      if WellFormed(l) { JoinSorted(l.entries, [e]); }
    }
    l.(entries := l.entries + [e])
  }

  /** Commits up to an existing index at or after the commit index. */
  function Commit(l: LogState, index: Index): (r: LogState)
    requires l.commitIndex <= index && 1 <= index <= |l.entries|
    ensures WellFormed(l) ==> WellFormed(r)
  {
    if index == l.commitIndex then l
    else l.(commitIndex := index, commitTerm := l.entries[index - 1].term)
  }

  /** The log as found on disk: entries, term and vote are flushed, while the commit index
      is not and may have fallen back. */
  function Recovered(l: LogState, commitIndex: Index): (r: LogState)
    requires commitIndex <= l.commitIndex
    ensures WellFormed(l) ==> WellFormed(r)
  {
    l.(commitIndex := commitIndex, commitTerm := TermAt(l.entries, commitIndex))
  }

  predicate Contiguous(es: seq<Entry>) {
    forall k :: 0 <= k < |es| ==> es[k].index == es[0].index + k
  }

  /** The log already holds exactly the first n entries of `es`, with equal terms. */
  ghost predicate IsOverlap(log: seq<Entry>, es: seq<Entry>, n: nat) {
    && n <= |es|
    && (forall k :: 0 <= k < n ==> Has(log, es[k].index, es[k].term))
    && (n < |es| ==> !Has(log, es[n].index, es[n].term))
  }

  /** How many leading entries of `es` the log already holds. */
  ghost function Overlap(log: seq<Entry>, es: seq<Entry>): (n: nat)
    ensures IsOverlap(log, es, n)
  {
    OverlapExists(log, es);
    var n :| IsOverlap(log, es, n);
    n
  }

  lemma OverlapExists(log: seq<Entry>, es: seq<Entry>)
    ensures exists n :: IsOverlap(log, es, n)
  {
    var n := 0;
    while n < |es| && Has(log, es[n].index, es[n].term)
      invariant 0 <= n <= |es|
      invariant forall k :: 0 <= k < n ==> Has(log, es[k].index, es[k].term)
    {
      n := n + 1;
    }
    assert IsOverlap(log, es, n);
  }

  lemma OverlapUnique(log: seq<Entry>, es: seq<Entry>, n: nat)
    requires IsOverlap(log, es, n)
    ensures n == Overlap(log, es)
  {
    assert IsOverlap(log, es, Overlap(log, es));
  }

  /** The checks `splice` asserts before writing, in order. */
  ghost function SpliceFault(l: LogState, es: seq<Entry>): Option<SplicePanic> {
    if es == [] then None
    else if es[0].index == 0 || es[0].term == 0 then Some(ZeroEntry)
    else if !Contiguous(es) then Some(NotContiguous)
    else if !TermsNondecreasing(es) then Some(TermRegression)
    else if es[|es| - 1].term > l.term then Some(BeyondTerm)
    else if es[0].index > |l.entries| + 1 then Some(Detached)
    else if es[0].term < TermAt(l.entries, es[0].index - 1) then Some(BelowBaseTerm)
    else
      var n := Overlap(l.entries, es);
      if exists k :: 0 <= k < n && l.entries[es[k].index - 1].command != es[k].command then Some(CommandMismatch)
      else if n < |es| && es[n].index <= l.commitIndex then Some(BelowCommit)
      else None
  }

  /** Entries already present are skipped; at the first new or conflicting one the log is
      cut and the rest written. */
  ghost function SpliceEntries(log: seq<Entry>, es: seq<Entry>): seq<Entry>
    requires es != [] ==> 1 <= es[0].index <= |log| + 1
    requires Contiguous(es)
  {
    var n := Overlap(log, es);
    if n == |es| then log
    else
      assert n > 0 ==> Has(log, es[n - 1].index, es[n - 1].term);
      log[..es[n].index - 1] + es[n..]
  }

  ghost function Splice(l: LogState, es: seq<Entry>): (r: LogState)
    requires SpliceFault(l, es).None?
    ensures WellFormed(l) ==> WellFormed(r) && r.entries[..r.commitIndex] == l.entries[..l.commitIndex]
  {
    if es == [] then l
    else
      assert WellFormed(l) ==>
        var r := l.(entries := SpliceEntries(l.entries, es));
        WellFormed(r) && r.entries[..r.commitIndex] == l.entries[..l.commitIndex]
      by { if WellFormed(l) { SpliceKeepsShape(l, es); } }
      l.(entries := SpliceEntries(l.entries, es))
  }

  lemma {:induction false} SpliceKeepsShape(l: LogState, es: seq<Entry>)
    requires WellFormed(l) && es != [] && SpliceFault(l, es).None?
    ensures var r := l.(entries := SpliceEntries(l.entries, es));
            WellFormed(r) && r.entries[..r.commitIndex] == l.entries[..l.commitIndex]
  {
    var n := Overlap(l.entries, es);
    if n < |es| {
      if n > 0 { assert Has(l.entries, es[n - 1].index, es[n - 1].term); }
      CutKeepsShape(l, es, n);
      assert SpliceEntries(l.entries, es) == l.entries[..es[n].index - 1] + es[n..];
    }
  }

  /** Cutting the log before `es[n]` and writing the rest, when entry n-1 is already stored. */
  lemma {:induction false} CutKeepsShape(l: LogState, es: seq<Entry>, n: nat)
    requires WellFormed(l) && n < |es| && Contiguous(es) && TermsNondecreasing(es)
    requires 1 <= es[0].index <= |l.entries| + 1 && 0 < es[0].term
    requires es[|es| - 1].term <= l.term && l.commitIndex < es[n].index
    requires if n == 0 then TermAt(l.entries, es[0].index - 1) <= es[0].term
             else Has(l.entries, es[n - 1].index, es[n - 1].term)
    ensures var r := l.(entries := l.entries[..es[n].index - 1] + es[n..]);
            WellFormed(r) && r.entries[..r.commitIndex] == l.entries[..l.commitIndex]
  {
    var cut := es[n].index - 1;
    var a, b := l.entries[..cut], es[n..];
    forall j, k | 0 <= j <= k < |a| ensures Ordered(a, j, k) { assert Ordered(l.entries, j, k); }
    forall j, k | 0 <= j <= k < |b| ensures Ordered(b, j, k) { assert Ordered(es, n + j, n + k); }
    assert Ordered(es, 0, n) && Ordered(es, if n > 0 then n - 1 else 0, n);
    JoinSorted(a, b);
    assert (a + b)[..l.commitIndex] == l.entries[..l.commitIndex];
  }

  lemma {:induction false} JoinSorted(a: seq<Entry>, b: seq<Entry>)
    requires Sorted(a) && TermsNondecreasing(b)
    requires forall k :: 0 <= k < |b| ==> b[k].index == |a| + 1 + k
    requires b != [] ==> b[0].term > 0 && LastTerm(a) <= b[0].term
    ensures Sorted(a + b)
  {
    var r := a + b;
    forall k | 0 <= k < |b| ensures b[0].term <= b[k].term { assert Ordered(b, 0, k); }
    forall j, k | 0 <= j <= k < |r| ensures Ordered(r, j, k) {
      if k < |a| { assert Ordered(a, j, k); }
      else if |a| <= j { assert Ordered(b, j - |a|, k - |a|); }
      else { assert Ordered(a, j, |a| - 1); }
    }
  }
}
