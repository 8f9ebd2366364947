/** The Raft log over a key/value engine (src/raft/log.rs): cached fields and stored keys that
    always agree with a plain sequence of entries. */
module RaftLogStore {
  import opened Basics
  import opened RaftMessage
  import opened RaftLog

  datatype LogKey = EntryKey(index: Index) | TermVoteKey | CommitIndexKey

  datatype LogValue =
    | StoredEntry(entry: Entry)
    | StoredTermVote(term: Term, vote: Option<NodeID>)
    | StoredCommit(index: Index, term: Term)

  type Engine = map<LogKey, LogValue>

  // ---------------------------------------------------------------- scans

  predicate IsLeast(s: set<nat>, i: nat) {
    i in s && forall j :: j in s ==> i <= j
  }

  lemma {:induction false} LeastExists(s: set<nat>)
    requires s != {}
    ensures exists i :: IsLeast(s, i)
  {
    var i :| i in s;
    if s - {i} == {} {
      assert s == {i} && IsLeast(s, i);
    } else {
      LeastExists(s - {i});
      var j :| IsLeast(s - {i}, j);
      assert forall k :: k in s ==> k == i || k in s - {i};
      assert IsLeast(s, if i <= j then i else j);
    }
  }

  /** The members of a set from the least up. */
  ghost predicate InAscending(order: seq<nat>, items: set<nat>) {
    && (forall i :: i in order <==> i in items)
    && (forall j, k :: 0 <= j < k < |order| ==> order[j] < order[k])
  }

  lemma LeastFirst(s: set<nat>, i: nat, rest: seq<nat>)
    requires IsLeast(s, i) && InAscending(rest, s - {i})
    ensures InAscending([i] + rest, s)
  {
    var q := [i] + rest;
    forall j, k | 0 <= j < k < |q| ensures q[j] < q[k] {
      assert q[k] == rest[k - 1] && rest[k - 1] in s - {i};
    }
  }

  /** The numbers of a set in ascending order. */
  function Ascending(s: set<nat>): (q: seq<nat>)
    ensures InAscending(q, s)
    decreases |s|
  {
    if s == {} then []
    else
      LeastExists(s);
      var i :| IsLeast(s, i);
      LeastFirst(s, i, Ascending(s - {i}));
      [i] + Ascending(s - {i})
  }

  lemma {:induction false} AscendingRange(q: seq<nat>, s: set<nat>, lo: nat, hi: nat)
    requires lo <= hi && InAscending(q, s) && forall i :: i in s <==> lo <= i < hi
    ensures q == seq(hi - lo, k => lo + k)
    decreases hi - lo
  {
    NonePresent(q, s);
    if lo < hi {
      RangeHead(q, s, lo, hi);
      AscendingRange(q[1..], s - {lo}, lo + 1, hi);
      assert q == [q[0]] + q[1..];
    }
  }

  lemma NonePresent(q: seq<nat>, s: set<nat>)
    requires InAscending(q, s)
    ensures s == {} ==> q == []
  {
    if q != [] { assert q[0] in q; }
  }

  lemma RangeHead(q: seq<nat>, s: set<nat>, lo: nat, hi: nat)
    requires lo < hi && InAscending(q, s) && forall i :: i in s <==> lo <= i < hi
    ensures q != [] && q[0] == lo && InAscending(q[1..], s - {lo})
  {
    assert lo in q;
    var j :| 0 <= j < |q| && q[j] == lo;
    assert q[0] in s;
    forall i ensures i in q[1..] <==> i in s - {lo} {
      if i in s - {lo} {
        var k :| 0 <= k < |q| && q[k] == i;
        assert q[1..][k - 1] == i;
      }
      if i in q[1..] {
        var k :| 0 <= k < |q[1..]| && q[1..][k] == i;
        assert q[k + 1] == i;
      }
    }
  }

  /** The indexes stored between two, both included. */
  function Indexes(engine: Engine, lo: Index, hi: Option<Index>): set<Index> {
    set k | k in engine && k.EntryKey? && lo <= k.index && (hi.Some? ==> k.index <= hi.value) :: k.index
  }

  lemma IndexesHas(engine: Engine, lo: Index, hi: Option<Index>, i: Index)
    ensures i in Indexes(engine, lo, hi) <==> EntryKey(i) in engine && lo <= i && (hi.Some? ==> i <= hi.value)
  {
    if EntryKey(i) in engine && lo <= i && (hi.Some? ==> i <= hi.value) {
      assert EntryKey(i).index in Indexes(engine, lo, hi);
    }
  }

  // ---------------------------------------------------------------- what an engine holds

  /** The engine holds exactly this log. */
  ghost predicate Holds(engine: Engine, l: LogState) {
    && (forall i: Index :: EntryKey(i) in engine <==> 1 <= i <= |l.entries|)
    && (forall i :: 1 <= i <= |l.entries| ==> engine[EntryKey(i)] == StoredEntry(l.entries[i - 1]))
    && (if TermVoteKey in engine then engine[TermVoteKey] == StoredTermVote(l.term, l.vote)
        else l.term == 0 && l.vote == None)
    && (if CommitIndexKey in engine then engine[CommitIndexKey] == StoredCommit(l.commitIndex, l.commitTerm)
        else l.commitIndex == 0 && l.commitTerm == 0)
  }

  /** There is only one log an engine can hold. */
  lemma HoldsOne(engine: Engine, l: LogState, m: LogState)
    requires Holds(engine, l) && Holds(engine, m)
    ensures l == m
  {
    assert |l.entries| == |m.entries| by {
      assert EntryKey(|l.entries| + 1) in engine <==> |l.entries| + 1 <= |m.entries|;
      assert EntryKey(|m.entries| + 1) in engine <==> |m.entries| + 1 <= |l.entries|;
    }
    forall k | 0 <= k < |l.entries| ensures l.entries[k] == m.entries[k] {
      assert engine[EntryKey(k + 1)] == StoredEntry(l.entries[k]) &&
          engine[EntryKey(k + 1)] == StoredEntry(m.entries[k]);
    }
  }

  lemma ScanIndexes(engine: Engine, l: LogState, lo: Index, hi: Index, q: seq<Index>)
    requires Holds(engine, l) && 1 <= lo <= hi + 1 && q == Ascending(Indexes(engine, lo, Some(hi)))
    ensures |q| == Max(lo, Min(hi, |l.entries|) + 1) - lo
    ensures forall k :: 0 <= k < |q| ==> q[k] == lo + k
  {
    var top := Max(lo, Min(hi, |l.entries|) + 1);
    forall i: Index ensures i in Indexes(engine, lo, Some(hi)) <==> lo <= i < top {
      IndexesHas(engine, lo, Some(hi), i);
    }
    AscendingRange(q, Indexes(engine, lo, Some(hi)), lo, top);
  }

  lemma HeldEntry(engine: Engine, l: LogState, i: Index)
    requires Holds(engine, l) && 1 <= i <= |l.entries|
    ensures EntryKey(i) in engine && engine[EntryKey(i)] == StoredEntry(l.entries[i - 1])
  {
  }

  lemma AllIndexes(engine: Engine, l: LogState)
    requires Holds(engine, l)
    ensures Ascending(Indexes(engine, 0, None)) == seq(|l.entries|, k => 1 + k)
  {
    forall i ensures i in Indexes(engine, 0, None) <==> 1 <= i < |l.entries| + 1 {
      if i >= 0 { IndexesHas(engine, 0, None, i); }
    }
    AscendingRange(Ascending(Indexes(engine, 0, None)), Indexes(engine, 0, None), 1, |l.entries| + 1);
  }

  /** The entries of a log between two indexes. */
  function Between(es: seq<Entry>, lo: Index, hi: Index): seq<Entry>
    requires 1 <= lo <= hi + 1
  {
    var base := Min(lo - 1, |es|);
    es[base..Max(base, Min(hi, |es|))]
  }

  // ---------------------------------------------------------------- splicing

  /** Indexes are checked pair by pair. */
  method CheckIndexes(es: seq<Entry>) returns (ok: bool)
    ensures ok == Contiguous(es)
  {
    var k := 1;
    while k < |es|
      invariant k >= 1 && forall j :: 0 <= j < k && j < |es| ==> es[j].index == es[0].index + j
    {
      if es[k - 1].index + 1 != es[k].index { return false; }
      k := k + 1;
    }
    return true;
  }

  /** Terms are checked pair by pair. */
  method CheckTerms(es: seq<Entry>) returns (ok: bool)
    ensures ok == TermsNondecreasing(es)
  {
    var k := 1;
    while k < |es|
      invariant k >= 1
      invariant forall i, j {:trigger Ordered(es, i, j)} :: 0 <= i <= j < k && j < |es| ==> Ordered(es, i, j)
    {
      if es[k - 1].term > es[k].term {
        assert !Ordered(es, k - 1, k);
        return false;
      }
      forall i | 0 <= i <= k ensures Ordered(es, i, k) { if i < k { assert Ordered(es, i, k - 1); } }
      k := k + 1;
    }
    return true;
  }

  /** The engine with the entries `ws` stored from index b on. */
  ghost predicate Patched(e0: Engine, e1: Engine, b: Index, ws: seq<Entry>) {
    && (forall i: Index :: EntryKey(i) in e1 <==> EntryKey(i) in e0 || b <= i < b + |ws|)
    && (forall i: Index :: EntryKey(i) in e1 ==>
        e1[EntryKey(i)] == if b <= i < b + |ws| then StoredEntry(ws[i - b]) else e0[EntryKey(i)])
    && SameMeta(e0, e1)
  }

  ghost predicate SameMeta(e0: Engine, e1: Engine) {
    && (TermVoteKey in e0 <==> TermVoteKey in e1) && (TermVoteKey in e0 ==> e1[TermVoteKey] == e0[TermVoteKey])
    && (CommitIndexKey in e0 <==> CommitIndexKey in e1) &&
        (CommitIndexKey in e0 ==> e1[CommitIndexKey] == e0[CommitIndexKey])
  }

  /** The engine without the entries between two indexes. */
  ghost predicate Trimmed(e0: Engine, e1: Engine, lo: Index, hi: Index) {
    && (forall i: Index :: EntryKey(i) in e1 <==> EntryKey(i) in e0 && !(lo <= i < hi))
    && (forall i: Index :: EntryKey(i) in e1 ==> e1[EntryKey(i)] == e0[EntryKey(i)])
    && SameMeta(e0, e1)
  }

  lemma SplicedHolds(e0: Engine, e1: Engine, e2: Engine, l: LogState, cut: Index, ws: seq<Entry>)
    requires Holds(e0, l) && cut <= |l.entries| && ws != []
    requires Patched(e0, e1, cut + 1, ws) && Trimmed(e1, e2, cut + |ws| + 1, |l.entries| + 1)
    ensures Holds(e2, l.(entries := l.entries[..cut] + ws))
  {
    var es := l.entries[..cut] + ws;
    forall i: Index ensures EntryKey(i) in e2 <==> 1 <= i <= |es| {
      assert EntryKey(i) in e1 <==> EntryKey(i) in e0 || cut + 1 <= i < cut + 1 + |ws|;
    }
    forall i: Index | 1 <= i <= |es| ensures e2[EntryKey(i)] == StoredEntry(es[i - 1]) { assert EntryKey(i) in e1; }
  }

  // ---------------------------------------------------------------- the log in place

  class LogStore {
    var engine: Engine
    var term: Term
    var vote: Option<NodeID>
    var lastIndex: Index
    var lastTerm: Term
    var commitIndex: Index
    var commitTerm: Term
    ghost var log: LogState

    ghost predicate Valid()
      reads this
    {
      && WellFormed(log)
      && Holds(engine, log)
      && term == log.term && vote == log.vote
      && lastIndex == |log.entries| && lastTerm == LastTerm(log.entries)
      && commitIndex == log.commitIndex && commitTerm == log.commitTerm
    }

    /** Reloads the cached fields from an engine that holds a log. */
    constructor (engine: Engine, ghost l: LogState)
      requires WellFormed(l) && Holds(engine, l)
      ensures Valid() && log == l && this.engine == engine
    {
      this.engine := engine;
      var term: Term, vote: Option<NodeID> := 0, None;
      if TermVoteKey in engine { term, vote := engine[TermVoteKey].term, engine[TermVoteKey].vote; }
      var indexes := Ascending(Indexes(engine, 0, None));
      AllIndexes(engine, l);
      var lastIndex: Index, lastTerm: Term := 0, 0;
      if indexes != [] {
        var last := engine[EntryKey(indexes[|indexes| - 1])].entry;
        lastIndex, lastTerm := last.index, last.term;
      }
      var commitIndex: Index, commitTerm: Term := 0, 0;
      if CommitIndexKey in engine {
        commitIndex, commitTerm := engine[CommitIndexKey].index, engine[CommitIndexKey].term;
      }
      this.term, this.vote := term, vote;
      this.lastIndex, this.lastTerm := lastIndex, lastTerm;
      this.commitIndex, this.commitTerm := commitIndex, commitTerm;
      log := l;
    }

    /** Stores the current term and vote. */
    method SetTermAndVote(term: Term, vote: Option<NodeID>)
      requires Valid()
      requires term > 0 && term >= this.term && (term > this.term || this.vote.None? || vote == this.vote)
      modifies this
      ensures Valid() && log == SetTermVote(old(log), term, vote)
    {
      if term == this.term && vote == this.vote { return; }
      engine := engine[TermVoteKey := StoredTermVote(term, vote)];
      this.term, this.vote := term, vote;
      log := SetTermVote(log, term, vote);
    }

    /** Appends a command at the current term. */
    method Append(command: Option<Command>) returns (index: Index)
      requires Valid() && term > 0
      modifies this
      ensures Valid() && log == AppendCommand(old(log), command) && index == |log.entries|
    {
      var entry := Entry(lastIndex + 1, term, command);
      engine := engine[EntryKey(entry.index) := StoredEntry(entry)];
      lastIndex, lastTerm := entry.index, entry.term;
      log := AppendCommand(log, command);
      return entry.index;
    }

    /** The entry at an index, if any. */
    method Get(index: Index) returns (e: Option<Entry>)
      requires Valid()
      ensures e == if 1 <= index <= |log.entries| then Some(log.entries[index - 1]) else None
    {
      if EntryKey(index) !in engine { return None; }
      return Some(engine[EntryKey(index)].entry);
    }

    /** Commits up to an existing index at or after the commit index. */
    method CommitTo(index: Index)
      requires Valid() && commitIndex <= index && 1 <= index <= lastIndex
      modifies this
      ensures Valid() && log == Commit(old(log), index)
    {
      var entry := Get(index);
      if index == commitIndex { return; }
      var term := entry.value.term;
      engine := engine[CommitIndexKey := StoredCommit(index, term)];
      commitIndex, commitTerm := index, term;
      log := Commit(log, index);
    }

    /** Whether the log has an entry of this index and term; the last one is checked first. */
    method HasEntry(index: Index, term: Term) returns (has: bool)
      requires Valid()
      ensures has == Has(log.entries, index, term)
    {
      if index == 0 || index > lastIndex { return false; }
      if index == lastIndex && term == lastTerm { return true; }
      var e := Get(index);
      return e.Some? && e.value.term == term;
    }

    /** The entries between two indexes, in order. */
    method Scan(lo: Index, hi: Index) returns (es: seq<Entry>)
      requires Valid() && 1 <= lo <= hi + 1
      ensures es == Between(log.entries, lo, hi)
    {
      var indexes := Ascending(Indexes(engine, lo, Some(hi)));
      hide Ascending, Indexes, WellFormed, Holds;
      ScanIndexes(engine, log, lo, hi, indexes);
      es := [];
      ghost var base := Min(lo - 1, |log.entries|);
      for k := 0 to |indexes|
        invariant base + |indexes| <= |log.entries| && es == log.entries[base..base + k]
      {
        HeldEntry(engine, log, lo + k);
        es := es + [engine[EntryKey(indexes[k])].entry];
      }
    }

    /** The committed entries after an applied index. */
    method ScanApply(applied: Index) returns (es: seq<Entry>)
      requires Valid()
      ensures es == if applied >= commitIndex then [] else log.entries[applied..commitIndex]
    {
      if applied >= commitIndex { return []; }
      es := Scan(applied + 1, commitIndex);
    }

    /** Splices entries into the log: entries already there are skipped, the rest written, and
        whatever is left of the old tail removed. */
    method SpliceIn(entries: seq<Entry>) returns (panic: Option<SplicePanic>)
      requires Valid()
      modifies this
      ensures Valid() && panic == SpliceFault(old(log), entries)
      ensures log == if panic.None? then Splice(old(log), entries) else old(log)
    {
      if entries == [] { return None; }
      panic := CheckEntries(entries);
      if panic.Some? { return; }
      var n: nat;
      n, panic := Skip(entries);
      if panic.Some? || n == |entries| { return; }
      if entries[n].index <= commitIndex { return Some(BelowCommit); }
      WriteTail(entries, n);
    }

    /** The checks made before looking at what is stored. */
    method CheckEntries(entries: seq<Entry>) returns (panic: Option<SplicePanic>)
      requires Valid() && entries != []
      ensures panic.Some? ==> panic == SpliceFault(log, entries)
      ensures panic.None? ==>
                && 1 <= entries[0].index <= |log.entries| + 1 && entries[0].term > 0
                && Contiguous(entries) && TermsNondecreasing(entries) && entries[|entries| - 1].term <= log.term
                && TermAt(log.entries, entries[0].index - 1) <= entries[0].term
    {
      var first, last := entries[0], entries[|entries| - 1];
      if first.index == 0 || first.term == 0 { return Some(ZeroEntry); }
      var contiguous := CheckIndexes(entries);
      if !contiguous { return Some(NotContiguous); }
      var ordered := CheckTerms(entries);
      if !ordered { return Some(TermRegression); }
      if last.term > term { return Some(BeyondTerm); }
      var base := Get(first.index - 1);
      if base.Some? && first.term < base.value.term { return Some(BelowBaseTerm); }
      if base.None? && first.index != 1 { return Some(Detached); }
      return None;
    }

    /** Skips the entries that are already in the log. */
    method Skip(entries: seq<Entry>) returns (n: nat, panic: Option<SplicePanic>)
      requires Valid() && entries != [] && Contiguous(entries) && 1 <= entries[0].index <= |log.entries| + 1
      ensures panic.None? ==> n == Overlap(log.entries, entries)
      ensures panic.None? ==> forall k :: 0 <= k < n ==> log.entries[entries[k].index - 1].command == entries[k].command
      ensures panic.Some? ==> panic == Some(CommandMismatch)
      ensures panic.Some? ==> exists k ::
          0 <= k < Overlap(log.entries, entries) && log.entries[entries[k].index - 1].command != entries[k].command
    {
      var first := entries[0].index;
      var scan := Scan(first, entries[|entries| - 1].index);
      n, panic := 0, None;
      while n < |scan| && scan[n].term == entries[n].term
        invariant n <= |scan| <= |entries|
        invariant forall k :: 0 <= k < n ==> Has(log.entries, entries[k].index, entries[k].term)
        invariant forall k :: 0 <= k < n ==> log.entries[entries[k].index - 1].command == entries[k].command
      {
        assert scan[n] == log.entries[entries[n].index - 1];
        if scan[n].command != entries[n].command {
          assert Has(log.entries, entries[n].index, entries[n].term);
          OverlapBeyond(log.entries, entries, n);
          return n, Some(CommandMismatch);
        }
        n := n + 1;
      }
      OverlapUnique(log.entries, entries, n);
    }

    method WriteTail(entries: seq<Entry>, n: nat)
      requires Valid() && n < |entries| && SpliceFault(log, entries).None? && n == Overlap(log.entries, entries)
      modifies this
      ensures Valid() && log == Splice(old(log), entries)
    {
      ghost var e0, l, cut := engine, log, entries[n].index - 1;
      var last, ws := entries[|entries| - 1], entries[n..];
      TailFacts(log, entries, n);
      hide WellFormed, Holds, SpliceFault, Splice, Patched, Trimmed, Overlap, LastTerm;
      StoreEntries(ws);
      ghost var e1 := engine;
      RemoveEntries(last.index + 1, lastIndex + 1);
      TrimmedAll(e0, e1, engine, l, cut, ws, Max(last.index, lastIndex) + 1);
      SplicedHolds(e0, e1, engine, l, cut, ws);
      lastIndex, lastTerm := last.index, last.term;
      log := Splice(l, entries);
    }

    method StoreEntries(es: seq<Entry>)
      requires es != [] && forall k :: 0 <= k < |es| ==> es[k].index == es[0].index + k
      modifies this`engine
      ensures Patched(old(engine), engine, es[0].index, es)
    {
      for k := 0 to |es|
        invariant Patched(old(engine), engine, es[0].index, es[..k])
      {
        engine := engine[EntryKey(es[k].index) := StoredEntry(es[k])];
      }
      assert es[..|es|] == es;
    }

    method RemoveEntries(lo: Index, hi: Index)
      modifies this`engine
      ensures Trimmed(old(engine), engine, lo, Max(lo, hi))
    {
      var index := lo;
      while index < hi
        invariant lo <= index <= Max(lo, hi) && Trimmed(old(engine), engine, lo, index)
      {
        engine := engine - {EntryKey(index)};
        index := index + 1;
      }
    }
  }

  /** What the checks say about the entries to write. */
  lemma TailFacts(l: LogState, es: seq<Entry>, n: nat)
    requires WellFormed(l) && n < |es| && SpliceFault(l, es).None? && n == Overlap(l.entries, es)
    ensures 1 <= es[n].index <= |l.entries| + 1
    ensures forall k :: 0 <= k < |es[n..]| ==> es[n..][k].index == es[n].index + k
    ensures es[|es| - 1].index == es[n].index - 1 + |es[n..]|
    ensures Splice(l, es) == l.(entries := l.entries[..es[n].index - 1] + es[n..])
    ensures |Splice(l, es).entries| == es[|es| - 1].index && LastTerm(Splice(l, es).entries) == es[|es| - 1].term
    ensures WellFormed(Splice(l, es))
  {
    assert Contiguous(es) && 1 <= es[0].index <= |l.entries| + 1;
    if n > 0 { assert Has(l.entries, es[n - 1].index, es[n - 1].term); }
    var r := Splice(l, es);
    assert r == l.(entries := l.entries[..es[n].index - 1] + es[n..]) && WellFormed(r);
    hide Splice, SpliceFault, Overlap, WellFormed;
    assert r.entries[|r.entries| - 1] == es[|es| - 1];
  }

  /** Trimming stops where the old log did. */
  lemma TrimmedAll(e0: Engine, e1: Engine, e2: Engine, l: LogState, cut: Index, ws: seq<Entry>, index: Index)
    requires Holds(e0, l) && cut <= |l.entries| && ws != [] && Patched(e0, e1, cut + 1, ws)
    requires Trimmed(e1, e2, cut + |ws| + 1, index) && index > |l.entries|
    ensures Trimmed(e1, e2, cut + |ws| + 1, |l.entries| + 1)
  {
    forall i: Index ensures EntryKey(i) in e2 <==> EntryKey(i) in e1 && !(cut + |ws| + 1 <= i < |l.entries| + 1) {
      assert EntryKey(i) in e1 <==> EntryKey(i) in e0 || cut + 1 <= i < cut + 1 + |ws|;
    }
  }

  lemma OverlapBeyond(log: seq<Entry>, es: seq<Entry>, n: nat)
    requires n < |es| && forall k :: 0 <= k <= n ==> Has(log, es[k].index, es[k].term)
    ensures n < Overlap(log, es)
  {
    assert IsOverlap(log, es, Overlap(log, es));
  }
}
