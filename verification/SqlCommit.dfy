/** Secondary indexes stay correct when concurrent transactions run SQL statements and commit:
    snapshot isolation refuses two of them that write the same row or the same index entry. */
module SqlCommit {
  import opened Basics
  import opened Keycode
  import opened MvccKey
  import opened MvccIsolation
  import Mvcc
  import S = SqlIndex
  import Q = SqlStatements

  /** How keys and values are stored. */
  datatype Codec = Codec(key: S.SqlKey -> Bytes, value: S.Stored -> Mvcc.Value, read: Mvcc.Value -> S.Stored)

  /** Keys are told apart, and values are read as they were written. */
  ghost predicate Faithful(codec: Codec) {
    && (forall a, b :: codec.key(a) == codec.key(b) ==> a == b)
    && (forall s :: codec.read(codec.value(s)) == s)
  }

  /** Two views hold the same under a key. */
  ghost predicate Same(a: S.View, b: S.View, k: S.SqlKey) {
    (k in a <==> k in b) && (k in a ==> a[k] == b[k])
  }

  lemma SameEntry(a: S.View, b: S.View, t: S.Table, c: nat, x: S.SqlValue)
    requires Same(a, b, S.IndexKey(t.name, c, x))
    ensures S.Entry(a, t, c, x) == S.Entry(b, t, c, x)
  {
  }

  lemma SameRow(a: S.View, b: S.View, t: S.Table, id: S.SqlValue, c: nat, x: S.SqlValue)
    requires c < |t.columns| && Same(a, b, S.RowKey(t.name, id))
    ensures S.HasValue(a, t, id, c, x) <==> S.HasValue(b, t, id, c, x)
  {
  }

  /** A transaction that saw `snap`, read `view` in the end and wrote the keys of `wrote`
      commits onto `base`, where none of those keys has changed since. */
  ghost predicate Merges(base: S.View, snap: S.View, view: S.View, wrote: set<Bytes>, codec: Codec, after: S.View) {
    forall k: S.SqlKey {:trigger codec.key(k)} ::
      if codec.key(k) in wrote then Same(base, snap, k) && Same(after, view, k)
      else Same(view, snap, k) && Same(after, base, k)
  }

  /** One entry after the commit. */
  lemma MergedEntry(base: S.View, snap: S.View, view: S.View, wrote: set<Bytes>, codec: Codec, after: S.View,
      t: S.Table, c: nat, x: S.SqlValue, id: S.SqlValue)
    requires Merges(base, snap, view, wrote, codec, after) && c < |t.columns|
    requires S.ColumnOk(base, t, c) && S.ColumnOk(snap, t, c) && S.ColumnOk(view, t, c)
    ensures id in S.Entry(after, t, c, x) <==> S.HasValue(after, t, id, c, x)
  {
    var entry, row := S.IndexKey(t.name, c, x), S.RowKey(t.name, id);
    assert id in S.Entry(base, t, c, x) <==> S.HasValue(base, t, id, c, x);
    assert id in S.Entry(snap, t, c, x) <==> S.HasValue(snap, t, id, c, x);
    assert id in S.Entry(view, t, c, x) <==> S.HasValue(view, t, id, c, x);
    if codec.key(entry) in wrote {
      SameEntry(base, snap, t, c, x);
      SameEntry(after, view, t, c, x);
    } else {
      SameEntry(view, snap, t, c, x);
      SameEntry(after, base, t, c, x);
    }
    if codec.key(row) in wrote {
      SameRow(base, snap, t, id, c, x);
      SameRow(after, view, t, id, c, x);
    } else {
      SameRow(view, snap, t, id, c, x);
      SameRow(after, base, t, id, c, x);
    }
  }

  lemma MergedWellFormed(base: S.View, snap: S.View, view: S.View, wrote: set<Bytes>, codec: Codec, after: S.View,
      t: S.Table)
    requires Merges(base, snap, view, wrote, codec, after) && S.WellFormed(base, t) && S.WellFormed(view, t)
    ensures S.WellFormed(after, t)
  {
    forall id | S.RowKey(t.name, id) in after
      ensures var s := after[S.RowKey(t.name, id)]; s.StoredRow? && |s.row| == |t.columns| && s.row[t.primaryKey] == id
    {
      var k := S.RowKey(t.name, id);
      assert if codec.key(k) in wrote then Same(after, view, k) else Same(after, base, k);
    }
    forall c: nat, x | S.IndexKey(t.name, c, x) in after
      ensures after[S.IndexKey(t.name, c, x)].StoredIds? && after[S.IndexKey(t.name, c, x)].ids != {}
    {
      var k := S.IndexKey(t.name, c, x);
      assert if codec.key(k) in wrote then Same(after, view, k) else Same(after, base, k);
    }
  }

  /** The committed state stays consistent. */
  lemma MergedConsistent(base: S.View, snap: S.View, view: S.View, wrote: set<Bytes>, codec: Codec, after: S.View,
      t: S.Table)
    requires Merges(base, snap, view, wrote, codec, after)
    requires S.Consistent(base, t) && S.Consistent(snap, t) && S.Consistent(view, t)
    ensures S.Consistent(after, t)
  {
    MergedWellFormed(base, snap, view, wrote, codec, after, t);
    forall c: nat | S.Indexed(t, c) ensures S.ColumnOk(after, t, c) {
      forall x, id ensures id in S.Entry(after, t, c, x) <==> S.HasValue(after, t, id, c, x) {
        MergedEntry(base, snap, view, wrote, codec, after, t, c, x, id);
      }
    }
  }

  // ---------------------------------------------------------------- runs

  /** The view holds under a key what the encoded key holds. */
  ghost predicate Holds(v: S.View, k: S.SqlKey, m: map<Bytes, Mvcc.Value>, codec: Codec) {
    (k in v <==> codec.key(k) in m) && (k in v ==> v[k] == codec.read(m[codec.key(k)]))
  }

  /** The view holds what the encoded keys hold. */
  ghost predicate IsViewOf(v: S.View, m: map<Bytes, Mvcc.Value>, codec: Codec) {
    forall k: S.SqlKey {:trigger codec.key(k)} :: Holds(v, k, m, codec)
  }

  /** The stored state has consistent indexes. */
  ghost predicate ConsistentState(m: map<Bytes, Mvcc.Value>, codec: Codec, t: S.Table) {
    exists v :: IsViewOf(v, m, codec) && S.Consistent(v, t)
  }

  lemma Merged(s: Reference, v: Version, base: S.View, snap: S.View, view: S.View, codec: Codec)
    returns (after: S.View)
    requires v in s.txns
    requires IsViewOf(base, s.committed, codec) && IsViewOf(snap, s.txns[v].snapshot, codec)
    requires IsViewOf(view, Overlay(s.txns[v].snapshot, s.txns[v].writes), codec)
    requires forall k :: k in s.txns[v].writes ==> Lookup(s.committed, k) == Lookup(s.txns[v].snapshot, k)
    ensures IsViewOf(after, Overlay(s.committed, s.txns[v].writes), codec)
    ensures Merges(base, snap, view, s.txns[v].writes.Keys, codec, after)
  {
    var w := s.txns[v].writes;
    after := map k | k in base.Keys + view.Keys && (if codec.key(k) in w then k in view else k in base)
               :: if codec.key(k) in w then view[k] else base[k];
    forall k: S.SqlKey
      ensures if codec.key(k) in w.Keys then Same(base, snap, k) && Same(after, view, k)
              else Same(view, snap, k) && Same(after, base, k)
    {
      MergedKey(s, v, base, snap, view, codec, k);
    }
    forall k: S.SqlKey ensures Holds(after, k, Overlay(s.committed, w), codec) {
      MergedKey(s, v, base, snap, view, codec, k);
    }
  }

  /** One key, before and after. */
  lemma MergedKey(s: Reference, v: Version, base: S.View, snap: S.View, view: S.View, codec: Codec,
      k: S.SqlKey)
    requires v in s.txns
    requires IsViewOf(base, s.committed, codec) && IsViewOf(snap, s.txns[v].snapshot, codec)
    requires IsViewOf(view, Overlay(s.txns[v].snapshot, s.txns[v].writes), codec)
    requires forall k :: k in s.txns[v].writes ==> Lookup(s.committed, k) == Lookup(s.txns[v].snapshot, k)
    ensures if codec.key(k) in s.txns[v].writes then Same(base, snap, k) else Same(view, snap, k)
    ensures var m := Overlay(s.committed, s.txns[v].writes);
            if codec.key(k) in s.txns[v].writes then Holds(view, k, m, codec)
            else Holds(base, k, m, codec)
  {
    var b, w := codec.key(k), s.txns[v].writes;
    var m, n := Overlay(s.committed, w), Overlay(s.txns[v].snapshot, w);
    assert Lookup(m, b) == if b in w then w[b] else Lookup(s.committed, b);
    assert Lookup(n, b) == if b in w then w[b] else Lookup(s.txns[v].snapshot, b);
    assert b in w ==> Lookup(s.committed, b) == Lookup(s.txns[v].snapshot, b);
  }

  /** The committed state and every snapshot have consistent indexes. */
  ghost predicate AllConsistent(s: Reference, codec: Codec, t: S.Table) {
    && ConsistentState(s.committed, codec, t)
    && forall v :: v in s.txns ==> ConsistentState(s.txns[v].snapshot, codec, t)
  }

  lemma CommitConsistent(st: State, s: Reference, v: Version, codec: Codec, t: S.Table)
    requires Matches(st, s) && v in st.open && v in s.txns && AllConsistent(s, codec, t)
    requires ConsistentState(Overlay(s.txns[v].snapshot, s.txns[v].writes), codec, t)
    ensures ConsistentState(Overlay(s.committed, s.txns[v].writes), codec, t)
  {
    var base :| IsViewOf(base, s.committed, codec) && S.Consistent(base, t);
    var snap :| IsViewOf(snap, s.txns[v].snapshot, codec) && S.Consistent(snap, t);
    var view :| IsViewOf(view, Overlay(s.txns[v].snapshot, s.txns[v].writes), codec) && S.Consistent(view, t);
    hide *;
    forall k | k in s.txns[v].writes ensures Lookup(s.committed, k) == Lookup(s.txns[v].snapshot, k) {
      WrittenUntouched(st, s, v, k);
    }
    var after := Merged(s, v, base, snap, view, codec);
    MergedConsistent(base, snap, view, s.txns[v].writes.Keys, codec, after, t);
    IsConsistentState(after, Overlay(s.committed, s.txns[v].writes), codec, t);
  }

  lemma IsConsistentState(v: S.View, m: map<Bytes, Mvcc.Value>, codec: Codec, t: S.Table)
    requires IsViewOf(v, m, codec) && S.Consistent(v, t)
    ensures ConsistentState(m, codec, t)
  {
  }

  // ---------------------------------------------------------------- what transactions write

  ghost predicate IsSqlKey(k: Bytes, codec: Codec) {
    exists s :: codec.key(s) == k
  }

  type Log = seq<(Bytes, Option<Mvcc.Value>)>

  /** The rows and index entries that transaction v writes in the first j events, in order.
      Writes of other keys, such as table definitions, are left aside. */
  ghost function Logged(r: Run, j: nat, v: Version, codec: Codec): Log
    requires j <= |r.events|
  {
    if j == 0 then []
    else
      var rest, ev := Logged(r, j - 1, v, codec), r.events[j - 1];
      if ev.Write? && ev.version == v && IsSqlKey(ev.key, codec) then rest + [(ev.key, ev.value)] else rest
  }

  ghost function Encoded(ws: seq<Q.Write>, codec: Codec): (log: Log)
    ensures |log| == |ws|
  {
    seq(|ws|, i requires 0 <= i < |ws| => EncodedWrite(ws[i], codec))
  }

  ghost function EncodedWrite(w: Q.Write, codec: Codec): (Bytes, Option<Mvcc.Value>) {
    (codec.key(w.key), if w.value.Some? then Some(codec.value(w.value.value)) else None)
  }

  /** The last write of each key. */
  ghost function Last(log: Log): map<Bytes, Option<Mvcc.Value>> {
    if log == [] then map[] else Last(log[..|log| - 1])[log[|log| - 1].0 := log[|log| - 1].1]
  }

  /** None of the transaction's writes in the first j events is refused. */
  ghost predicate Unhindered(r: Run, j: nat, v: Version)
    requires ValidRun(r) && j <= |r.events|
  {
    forall i :: 0 <= i < j && r.events[i].Write? && r.events[i].version == v ==> Accepted(r, i)
  }

  ghost predicate Accepted(r: Run, i: nat)
    requires ValidRun(r) && i < |r.events| && r.events[i].Write?
  {
    RefNext(r, i);
    !Mvcc.Conflicts(r.states[i].data, r.states[i].open[r.events[i].version], r.events[i].key)
  }

  /** The writes of a transaction agree with its log on rows and index entries. */
  ghost predicate Agrees(w: map<Bytes, Option<Mvcc.Value>>, log: Log, codec: Codec) {
    forall s: S.SqlKey {:trigger codec.key(s)} ::
      && (codec.key(s) in w <==> codec.key(s) in Last(log))
      && (codec.key(s) in w ==> w[codec.key(s)] == Last(log)[codec.key(s)])
  }

  lemma LastNext(log: Log, k: Bytes, value: Option<Mvcc.Value>)
    ensures Last(log + [(k, value)]) == Last(log)[k := value]
  {
    assert (log + [(k, value)])[..|log|] == log;
  }

  /** Before a transaction begins it has written nothing; then its log is what it wrote. */
  lemma {:induction false} LoggedWrites(r: Run, j: nat, v: Version, codec: Codec)
    requires ValidRun(r) && j <= |r.events| && Unhindered(r, j, v)
    ensures if v in RefAt(r, j).txns then Agrees(RefAt(r, j).txns[v].writes, Logged(r, j, v, codec), codec)
            else Logged(r, j, v, codec) == []
  {
    hide *;
    if j == 0 {
      RefStart(r);
      LoggedStart(r, v, codec);
    } else {
      UnhinderedBefore(r, j, v);
      LoggedWrites(r, j - 1, v, codec);
      RefNext(r, j - 1);
      LoggedNext(r, j - 1, v, codec);
      WriteAccepted(r, j, v);
      StepLogs(r.states[j - 1], RefAt(r, j - 1), r.events[j - 1], v, Logged(r, j - 1, v, codec), codec);
    }
  }

  lemma UnhinderedBefore(r: Run, j: nat, v: Version)
    requires ValidRun(r) && 0 < j <= |r.events| && Unhindered(r, j, v)
    ensures Unhindered(r, j - 1, v)
  {
    hide ValidRun, Accepted;
  }

  lemma WriteAccepted(r: Run, j: nat, v: Version)
    requires ValidRun(r) && 0 < j <= |r.events| && Unhindered(r, j, v)
    ensures var ev, s := r.events[j - 1], RefAt(r, j - 1);
            ev.Write? && ev.version == v ==> v in s.txns && !RefConflicts(s, v, ev.key)
  {
    var ev := r.events[j - 1];
    if ev.Write? && ev.version == v {
      assert Accepted(r, j - 1);
      hide *;
      AcceptedIs(r, j - 1);
      FirstWriterWins(r, j - 1, v, ev.key);
    }
  }

  lemma AcceptedIs(r: Run, i: nat)
    requires ValidRun(r) && i < |r.events| && r.events[i].Write? && Accepted(r, i)
    ensures r.events[i].version in r.states[i].open
    ensures !Mvcc.Conflicts(r.states[i].data, r.states[i].open[r.events[i].version], r.events[i].key)
  {
    RefNext(r, i);
    hide ValidRun, RefAt, Matches, Step, RefStep, RefEnabled, Mvcc.Conflicts;
  }

  lemma LoggedStart(r: Run, v: Version, codec: Codec)
    ensures Logged(r, 0, v, codec) == [] && v !in EMPTY.txns
  {
  }

  ghost function Added(log: Log, ev: Event, v: Version, codec: Codec): Log {
    if ev.Write? && ev.version == v && IsSqlKey(ev.key, codec) then log + [(ev.key, ev.value)] else log
  }

  lemma LoggedNext(r: Run, j: nat, v: Version, codec: Codec)
    requires j < |r.events|
    ensures Logged(r, j + 1, v, codec) == Added(Logged(r, j, v, codec), r.events[j], v, codec)
  {
  }

  lemma StepLogs(st: State, s: Reference, ev: Event, v: Version, log: Log, codec: Codec)
    requires Matches(st, s) && RefEnabled(s, ev)
    requires if v in s.txns then Agrees(s.txns[v].writes, log, codec) else log == []
    requires ev.Write? && ev.version == v ==> v in s.txns && !RefConflicts(s, v, ev.key)
    ensures var s' := RefStep(s, ev);
            if v in s'.txns then Agrees(s'.txns[v].writes, Added(log, ev, v, codec), codec)
            else Added(log, ev, v, codec) == []
  {
    MatchParts(st, s);
    assert s.next !in s.txns;
    hide Matches, Stores, Handles, ActiveSets, NoOverlap, Seen, Snapshots, CommittedState, RefConflicts, Agrees;
    if ev.Write? && ev.version == v {
      WriteLogs(s.txns[v].writes, ev.key, ev.value, log, codec);
    } else if ev.Begin? && v == s.next {
      NoWrites(codec);
    }
  }

  lemma NoWrites(codec: Codec)
    ensures Agrees(map[], [], codec)
  {
  }

  lemma WriteLogs(w: map<Bytes, Option<Mvcc.Value>>, k: Bytes, value: Option<Mvcc.Value>, log: Log, codec: Codec)
    requires Agrees(w, log, codec)
    ensures Agrees(w[k := value], if IsSqlKey(k, codec) then log + [(k, value)] else log, codec)
  {
    LastNext(log, k, value);
  }

  // ---------------------------------------------------------------- views of what is written

  /** Statements read the view; the engine holds the same. */
  lemma {:induction false} AppliedView(snap: S.View, m: map<Bytes, Mvcc.Value>, ws: seq<Q.Write>, codec: Codec)
    requires Faithful(codec) && IsViewOf(snap, m, codec)
    ensures IsViewOf(Q.Apply(snap, ws), Overlay(m, Last(Encoded(ws, codec))), codec)
  {
    if ws == [] {
      assert Overlay(m, Last(Encoded(ws, codec))) == m;
    } else {
      var init, w := ws[..|ws| - 1], ws[|ws| - 1];
      AppliedView(snap, m, init, codec);
      assert Encoded(ws, codec) == Encoded(init, codec) + [EncodedWrite(w, codec)];
      LastNext(Encoded(init, codec), codec.key(w.key), EncodedWrite(w, codec).1);
      PutView(Q.Apply(snap, init), m, Last(Encoded(init, codec)), w, codec);
    }
  }

  lemma PutView(v: S.View, m: map<Bytes, Mvcc.Value>, last: map<Bytes, Option<Mvcc.Value>>, w: Q.Write, codec: Codec)
    requires Faithful(codec) && IsViewOf(v, Overlay(m, last), codec)
    ensures IsViewOf(Q.Put(v, w), Overlay(m, last[codec.key(w.key) := EncodedWrite(w, codec).1]), codec)
  {
    var next, u := last[codec.key(w.key) := EncodedWrite(w, codec).1], Q.Put(v, w);
    var a, b := Overlay(m, last), Overlay(m, next);
    hide Overlay;
    forall s: S.SqlKey
      ensures Holds(u, s, b, codec)
    {
      var k := codec.key(s);
      assert Holds(v, s, a, codec);
      assert Lookup(a, k) == if k in last then last[k] else Lookup(m, k);
      assert Lookup(b, k) == if k in next then next[k] else Lookup(m, k);
      assert s != w.key ==> k != codec.key(w.key);
    }
  }

  lemma SameOverlay(v: S.View, m: map<Bytes, Mvcc.Value>, w: map<Bytes, Option<Mvcc.Value>>, log: Log, codec: Codec)
    requires IsViewOf(v, Overlay(m, Last(log)), codec) && Agrees(w, log, codec)
    ensures IsViewOf(v, Overlay(m, w), codec)
  {
    var a, b := Overlay(m, Last(log)), Overlay(m, w);
    hide Overlay;
    forall s: S.SqlKey ensures Holds(v, s, b, codec) {
      var k := codec.key(s);
      assert Holds(v, s, a, codec);
      assert Lookup(a, k) == if k in Last(log) then Last(log)[k] else Lookup(m, k);
      assert Lookup(b, k) == if k in w then w[k] else Lookup(m, k);
    }
  }

  lemma ViewUnique(a: S.View, b: S.View, m: map<Bytes, Mvcc.Value>, codec: Codec)
    requires IsViewOf(a, m, codec) && IsViewOf(b, m, codec)
    ensures a == b
  {
    forall k: S.SqlKey ensures (k in a <==> k in b) && (k in a ==> a[k] == b[k]) {
      assert codec.key(k) == codec.key(k);
    }
  }

  /** While a transaction's writes are accepted, a row or index entry it reads from the engine
      is the one in the view that its statements work on: its snapshot overlaid with the
      writes of the statements so far. */
  lemma ReadsAreViews(r: Run, j: nat, v: Version, snap: S.View, ws: seq<Q.Write>, codec: Codec, k: S.SqlKey,
      value: Option<Mvcc.Value>)
    requires ValidRun(r) && j <= |r.events| && v in r.states[j].open && Unhindered(r, j, v) && Faithful(codec)
    requires v in RefAt(r, j).txns && IsViewOf(snap, RefAt(r, j).txns[v].snapshot, codec)
    requires Logged(r, j, v, codec) == Encoded(ws, codec)
    requires Mvcc.Reads(r.states[j].data, r.states[j].open[v], codec.key(k), value)
    ensures var view := Q.Apply(snap, ws);
            if k in view then value.Some? && codec.read(value.value) == view[k] else value.None?
  {
    var x := RefAt(r, j).txns[v];
    SnapshotIsolation(r, j, v, codec.key(k), value);
    LoggedWrites(r, j, v, codec);
    AppliedView(snap, x.snapshot, ws, codec);
    SameOverlay(Q.Apply(snap, ws), x.snapshot, x.writes, Encoded(ws, codec), codec);
    var b := Overlay(x.snapshot, x.writes);
    assert Lookup(b, codec.key(k)) == value;
  }

  // ---------------------------------------------------------------- statements that commit

  /** What transaction v has written by step j is what a program of statements on its snapshot
      writes, all of them returning Ok. */
  ghost predicate RanProgram(r: Run, j: nat, v: Version, p: Q.Program, snap: S.View, codec: Codec)
    requires ValidRun(r) && j <= |r.events| && v in RefAt(r, j).txns
  {
    && IsViewOf(snap, RefAt(r, j).txns[v].snapshot, codec)
    && Unhindered(r, j, v)
    && var x := Q.Ran(Q.Trail(snap, []), p);
    && x.Some? && Logged(r, j, v, codec) == Encoded(x.value.writes, codec)
  }

  /** If step j commits a transaction, then all its statements returned Ok. */
  ghost predicate CommitsStatements(r: Run, j: nat, codec: Codec, t: S.Table)
    requires ValidRun(r) && j < |r.events|
  {
    var ev := r.events[j];
    ev.Commit? && ev.version in RefAt(r, j).txns ==>
      exists p, snap :: RanProgram(r, j, ev.version, p, snap, codec) && Q.UsesSchema(p, t)
  }

  /** Statements that return Ok take a consistent snapshot to a consistent state. */
  lemma ProgramConsistent(r: Run, j: nat, v: Version, p: Q.Program, snap: S.View, codec: Codec, t: S.Table)
    requires ValidRun(r) && j <= |r.events| && v in RefAt(r, j).txns && Faithful(codec)
    requires RanProgram(r, j, v, p, snap, codec) && Q.UsesSchema(p, t)
    requires ConsistentState(RefAt(r, j).txns[v].snapshot, codec, t)
    ensures ConsistentState(Overlay(RefAt(r, j).txns[v].snapshot, RefAt(r, j).txns[v].writes), codec, t)
  {
    var x := RefAt(r, j).txns[v];
    var tr := Q.Ran(Q.Trail(snap, []), p).value;
    LoggedWrites(r, j, v, codec);
    var start :| IsViewOf(start, x.snapshot, codec) && S.Consistent(start, t);
    ViewUnique(start, snap, x.snapshot, codec);
    hide *;
    StartSound(snap);
    Q.ProgramOk(Q.Trail(snap, []), p, t, snap);
    SoundIs(tr, snap);
    AppliedView(snap, x.snapshot, tr.writes, codec);
    SameOverlay(tr.view, x.snapshot, x.writes, Encoded(tr.writes, codec), codec);
    IsConsistentState(tr.view, Overlay(x.snapshot, x.writes), codec, t);
  }

  lemma StartSound(snap: S.View)
    ensures Q.Sound(Q.Trail(snap, []), snap)
  {
  }

  lemma SoundIs(x: Q.Trail, snap: S.View)
    requires Q.Sound(x, snap)
    ensures x.view == Q.Apply(snap, x.writes)
  {
  }

  /** In every run in which the statements of committing transactions all returned Ok, however
      the transactions interleave, the committed state and every snapshot always have
      consistent indexes. */
  lemma {:induction false} CommittedIndexes(r: Run, j: nat, codec: Codec, t: S.Table)
    requires ValidRun(r) && j < |r.states| == |r.events| + 1 && S.IsTable(t) && Faithful(codec)
    requires forall i :: 0 <= i < |r.events| ==> CommitsStatements(r, i, codec, t)
    ensures AllConsistent(RefAt(r, j), codec, t)
  {
    hide *;
    if j == 0 {
      RefStart(r);
      EmptyConsistent(codec, t);
    } else {
      var i, ev := j - 1, r.events[j - 1];
      CommittedIndexes(r, i, codec, t);
      RefNext(r, i);
      assert CommitsStatements(r, i, codec, t);
      CommitOk(r, i, codec, t);
      StepConsistent(r.states[i], RefAt(r, i), ev, codec, t);
    }
  }

  lemma RefStart(r: Run)
    requires ValidRun(r)
    ensures RefAt(r, 0) == EMPTY
  {
  }

  lemma CommitOk(r: Run, j: nat, codec: Codec, t: S.Table)
    requires ValidRun(r) && j < |r.events| && |r.states| == |r.events| + 1 && Faithful(codec)
    requires CommitsStatements(r, j, codec, t)
    ensures var s, ev := RefAt(r, j), r.events[j];
            ev.Commit? && ev.version in s.txns && ConsistentState(s.txns[ev.version].snapshot, codec, t) ==>
              ConsistentState(Overlay(s.txns[ev.version].snapshot, s.txns[ev.version].writes), codec, t)
  {
    var s, ev := RefAt(r, j), r.events[j];
    hide RefAt, ConsistentState, Overlay, ValidRun, RanProgram, Q.UsesSchema, Faithful;
    if ev.Commit? && ev.version in s.txns && ConsistentState(s.txns[ev.version].snapshot, codec, t) {
      var p, snap :| RanProgram(r, j, ev.version, p, snap, codec) && Q.UsesSchema(p, t);
      ProgramConsistent(r, j, ev.version, p, snap, codec, t);
    }
  }

  lemma EmptyConsistent(codec: Codec, t: S.Table)
    requires S.IsTable(t)
    ensures AllConsistent(EMPTY, codec, t)
  {
    var v: S.View := map[];
    forall k: S.SqlKey ensures Holds(v, k, map[], codec) { assert k !in v; }
    assert IsViewOf(v, map[], codec) && S.Consistent(v, t);
  }

  lemma StepConsistent(st: State, s: Reference, ev: Event, codec: Codec, t: S.Table)
    requires Matches(st, s) && Enabled(st, ev) && RefEnabled(s, ev) && AllConsistent(s, codec, t)
    requires ev.Commit? && ev.version in s.txns && ConsistentState(s.txns[ev.version].snapshot, codec, t) ==>
               ConsistentState(Overlay(s.txns[ev.version].snapshot, s.txns[ev.version].writes), codec, t)
    ensures AllConsistent(RefStep(s, ev), codec, t)
  {
    hide Matches, ConsistentState, Overlay;
    if ev.Commit? { CommitConsistent(st, s, ev.version, codec, t); }
  }
}
