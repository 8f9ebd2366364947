/** Snapshot isolation: MVCC transactions behave exactly as transactions of a reference
    database that copies the committed state when a transaction begins, buffers its writes,
    and applies them when it commits. */
module MvccIsolation {
  import opened Basics
  import opened Keycode
  import opened MvccKey
  import opened Mvcc

  // ---------------------------------------------------------------- the reference

  datatype Status = Open | Committed | RolledBack

  /** A transaction: the transactions committed when it began, the state it saw then, and
      what it wrote since (None deletes). */
  datatype Txn = Txn(status: Status, seen: set<Version>, snapshot: map<Bytes, Value>, writes: map<Bytes, Option<Value>>)

  datatype Reference = Reference(next: Version, committed: map<Bytes, Value>, txns: map<Version, Txn>)

  const EMPTY: Reference := Reference(1, map[], map[])

  function Lookup(m: map<Bytes, Value>, k: Bytes): Option<Value> {
    if k in m then Some(m[k]) else None
  }

  /** The state after some writes. */
  function Overlay(m: map<Bytes, Value>, w: map<Bytes, Option<Value>>): (r: map<Bytes, Value>)
    ensures forall k :: Lookup(r, k) == if k in w then w[k] else Lookup(m, k)
  {
    map k | k in m.Keys + w.Keys && (k in w ==> w[k].Some?) :: if k in w then w[k].value else m[k]
  }

  function CommittedSet(s: Reference): set<Version> {
    set v | v in s.txns && s.txns[v].status == Committed
  }

  /** Another transaction wrote the key, did not roll back, and is not part of what v saw. */
  ghost predicate RefConflicts(s: Reference, v: Version, k: Bytes)
    requires v in s.txns
  {
    exists u :: u in s.txns && u != v && s.txns[u].status != RolledBack && k in s.txns[u].writes && u !in s.txns[v].seen
  }

  function RefRead(s: Reference, v: Version, k: Bytes): Option<Value>
    requires v in s.txns
  {
    var t := s.txns[v];
    if k in t.writes then t.writes[k] else Lookup(t.snapshot, k)
  }

  // ---------------------------------------------------------------- events

  /** Operations that change something. Only open transactions act. */
  datatype Event =
    | Begin
    | Write(version: Version, key: Bytes, value: Option<Value>)
    | Commit(version: Version)
    | Rollback(version: Version)

  /** The engine and the open read-write transactions. */
  datatype State = State(data: Data, open: map<Version, TransactionState>)

  ghost predicate Enabled(s: State, ev: Event) {
    WellTyped(s.data) && if ev.Begin? then NextOf(s.data) < MAX_VERSION else ev.version in s.open
  }

  ghost function Step(s: State, ev: Event): State
    requires Enabled(s, ev)
  {
    match ev
    case Begin =>
      var t := BeginState(s.data);
      State(BeginData(s.data), s.open[t.version := t])
    case Write(v, k, value) =>
      if Conflicts(s.data, s.open[v], k) then s else State(WriteData(s.data, v, k, value), s.open)
    case Commit(v) => State(CommitData(s.data, v), s.open - {v})
    case Rollback(v) => State(RollbackData(s.data, v), s.open - {v})
  }

  ghost predicate RefEnabled(s: Reference, ev: Event) {
    if ev.Begin? then s.next < MAX_VERSION else ev.version in s.txns && s.txns[ev.version].status == Open
  }

  ghost function RefStep(s: Reference, ev: Event): Reference
    requires RefEnabled(s, ev)
  {
    match ev
    case Begin =>
      Reference(s.next + 1, s.committed, s.txns[s.next := Txn(Open, CommittedSet(s), s.committed, map[])])
    case Write(v, k, value) =>
      if RefConflicts(s, v, k) then s else Recorded(s, v, k, value)
    case Commit(v) =>
      s.(committed := Overlay(s.committed, s.txns[v].writes), txns := s.txns[v := s.txns[v].(status := Committed)])
    case Rollback(v) => s.(txns := s.txns[v := s.txns[v].(status := RolledBack)])
  }

  // ---------------------------------------------------------------- the relation

  /** The transactions that were open when v began. */
  function A(d: Data, v: Version): set<Version>
    requires WellTyped(d)
  {
    StoredSnapshot(d, v)
  }

  ghost predicate IsOpen(s: Reference, v: Version) {
    v in s.txns && s.txns[v].status == Open
  }

  /** v wrote k and did not roll back. */
  ghost predicate Wrote(s: Reference, v: Version, k: Bytes) {
    v in s.txns && s.txns[v].status != RolledBack && k in s.txns[v].writes
  }

  /** The engine holds what the reference says. */
  ghost predicate Stores(d: Data, s: Reference) {
    && WellTyped(d)
    && NextOf(d) == s.next && s.next >= 1
    && (forall v: Version :: v in s.txns <==> 1 <= v < s.next)
    && (forall v: Version :: TxnActive(v) in d <==> IsOpen(s, v))
    && (forall v: Version, k :: TxnWrite(v, k) in d <==> IsOpen(s, v) && k in s.txns[v].writes)
    && (forall v: Version, k :: Version(k, v) in d <==> Wrote(s, v, k))
    && (forall v: Version, k :: Version(k, v) in d ==> d[Version(k, v)] == Written(s.txns[v].writes[k]))
    && (forall v: Version :: TxnActiveSnapshot(v) in d ==> v in s.txns)
  }

  ghost predicate Handles(st: State, s: Reference)
    requires WellTyped(st.data)
  {
    && (forall v :: v in st.open <==> IsOpen(s, v))
    && (forall v :: v in st.open ==> st.open[v] == TransactionState(v, false, A(st.data, v)))
  }

  /** How the stored active sets relate: they hold every earlier transaction that is still
      open, and one missing from a set is missing from all later ones. */
  ghost predicate ActiveSets(d: Data, s: Reference)
    requires WellTyped(d)
  {
    && (forall u, v {:trigger IsEarlier(d, s, u, v)} :: IsEarlier(d, s, u, v))
    && (forall u, v {:trigger OpenKnown(d, s, u, v)} :: OpenKnown(d, s, u, v))
    && (forall u, v, w {:trigger Nested(d, s, u, v, w)} :: Nested(d, s, u, v, w))
  }

  ghost predicate IsEarlier(d: Data, s: Reference, u: Version, v: Version)
    requires WellTyped(d)
  {
    v in s.txns && u in A(d, v) ==> u < v && u in s.txns
  }

  ghost predicate OpenKnown(d: Data, s: Reference, u: Version, v: Version)
    requires WellTyped(d)
  {
    v in s.txns && IsOpen(s, u) && u < v ==> u in A(d, v)
  }

  ghost predicate Nested(d: Data, s: Reference, u: Version, v: Version, w: Version)
    requires WellTyped(d)
  {
    v in s.txns && w in s.txns && u < v < w && u in A(d, w) ==> u in A(d, v)
  }

  /** No stored version is of a transaction that was open when the writer of a later version
      of the same key began. */
  ghost predicate NoOverlap(d: Data, s: Reference)
    requires WellTyped(d)
  {
    forall u, v, k {:trigger Apart(d, s, u, v, k)} :: Apart(d, s, u, v, k)
  }

  ghost predicate Apart(d: Data, s: Reference, u: Version, v: Version, k: Bytes)
    requires WellTyped(d)
  {
    Wrote(s, u, k) && Wrote(s, v, k) && u < v ==> u !in A(d, v)
  }

  ghost predicate Seen(d: Data, s: Reference)
    requires WellTyped(d)
  {
    forall u, v {:trigger SeenAt(d, s, u, v)} :: SeenAt(d, s, u, v)
  }

  /** v saw exactly the committed transactions before it that were not open when it began. */
  ghost predicate SeenAt(d: Data, s: Reference, u: Version, v: Version)
    requires WellTyped(d)
  {
    v in s.txns ==> (u in s.txns[v].seen <==> u in s.txns && u < v && u !in A(d, v) && s.txns[u].status == Committed)
  }

  /** u is the last committed transaction below n and outside a that wrote k. */
  ghost predicate IsLastCommit(s: Reference, n: Version, a: set<Version>, k: Bytes, u: Version) {
    && Commits(s, n, a, k, u)
    && forall w: Version :: Commits(s, n, a, k, w) ==> w <= u
  }

  ghost predicate Commits(s: Reference, n: Version, a: set<Version>, k: Bytes, u: Version) {
    u in s.txns && u < n && u !in a && s.txns[u].status == Committed && k in s.txns[u].writes
  }

  /** The value that transactions committed below n and outside a left under k. */
  ghost predicate IsView(s: Reference, n: Version, a: set<Version>, k: Bytes, value: Option<Value>) {
    || (exists u: Version :: IsLastCommit(s, n, a, k, u) && value == s.txns[u].writes[k])
    || (value == None && forall u: Version :: !Commits(s, n, a, k, u))
  }

  ghost predicate SnapshotAt(d: Data, s: Reference, v: Version, k: Bytes)
    requires WellTyped(d) && v in s.txns
  {
    IsView(s, v, A(d, v), k, Lookup(s.txns[v].snapshot, k))
  }

  ghost predicate Snapshots(d: Data, s: Reference)
    requires WellTyped(d)
  {
    forall v, k {:trigger SnapshotAt(d, s, v, k)} :: v in s.txns ==> SnapshotAt(d, s, v, k)
  }

  ghost predicate CommittedAt(s: Reference, k: Bytes) {
    IsView(s, s.next, {}, k, Lookup(s.committed, k))
  }

  ghost predicate CommittedState(s: Reference) {
    forall k {:trigger CommittedAt(s, k)} :: CommittedAt(s, k)
  }

  ghost predicate Matches(st: State, s: Reference) {
    && Stores(st.data, s)
    && Handles(st, s)
    && ActiveSets(st.data, s)
    && NoOverlap(st.data, s)
    && Seen(st.data, s)
    && Snapshots(st.data, s)
    && CommittedState(s)
  }

  // ---------------------------------------------------------------- outcomes

  /** The conflict check looks only at the last version, and finds every conflict. */
  lemma ConflictsAgree(st: State, s: Reference, v: Version, k: Bytes)
    requires Matches(st, s) && v in st.open
    ensures Conflicts(st.data, st.open[v], k) <==> RefConflicts(s, v, k)
  {
    var d, t := st.data, st.open[v];
    if Conflicts(d, t, k) {
      var lo: Version, u: Version :| IsCheckStart(t, lo) && IsLatest(d, k, lo, u) && !Visible(t, u);
      InvisibleConflicts(st, s, v, k, u);
    }
    if RefConflicts(s, v, k) {
      var u :| u in s.txns && u != v && s.txns[u].status != RolledBack && k in s.txns[u].writes && u !in s.txns[v].seen;
      ConflictInvisible(st, s, v, k, u);
      hide ActiveSets, NoOverlap, Seen, Snapshots, CommittedState, Conflicts;
      InvisibleFound(st, s, v, k, u);
    }
  }

  lemma InvisibleConflicts(st: State, s: Reference, v: Version, k: Bytes, u: Version)
    requires Stores(st.data, s) && Handles(st, s) && ActiveSets(st.data, s) && Seen(st.data, s) && v in st.open
    requires Version(k, u) in st.data && !Visible(st.open[v], u)
    ensures RefConflicts(s, v, k)
  {
    assert Wrote(s, u, k) && SeenAt(st.data, s, u, v) && IsEarlier(st.data, s, v, v);
    assert u in s.txns && u != v && s.txns[u].status != RolledBack && k in s.txns[u].writes && u !in s.txns[v].seen;
  }

  lemma ConflictInvisible(st: State, s: Reference, v: Version, k: Bytes, u: Version)
    requires Stores(st.data, s) && Handles(st, s) && ActiveSets(st.data, s) && Seen(st.data, s) && v in st.open
    requires u in s.txns && u != v && s.txns[u].status != RolledBack && k in s.txns[u].writes && u !in s.txns[v].seen
    ensures Wrote(s, u, k) && !Visible(st.open[v], u)
  {
    assert SeenAt(st.data, s, u, v) && OpenKnown(st.data, s, u, v);
  }

  /** If some version is invisible, the last one is, and the check reaches it. */
  lemma InvisibleFound(st: State, s: Reference, v: Version, k: Bytes, u: Version)
    requires Stores(st.data, s) && Handles(st, s) && ActiveSets(st.data, s) && NoOverlap(st.data, s) && v in st.open
    requires Wrote(s, u, k) && !Visible(st.open[v], u)
    ensures Conflicts(st.data, st.open[v], k)
  {
    var d, t := st.data, st.open[v];
    var lo: Version := t.version + 1;
    if t.active != {} {
      lo := First(t.active);
      assert IsEarlier(d, s, lo, v);
    }
    assert lo <= u;
    assert Version(k, u) in d;
    var last := LatestExists(d, k, lo, u);
    assert Wrote(s, last, k) && Apart(d, s, u, last, k) && Nested(d, s, u, last, v);
    assert !Visible(t, last);
    assert IsCheckStart(t, lo) && IsLatest(d, k, lo, last) && !Visible(t, last);
  }

  lemma LatestExists(d: Data, k: Bytes, lo: Version, u: Version) returns (last: Version)
    requires Version(k, u) in d && lo <= u
    ensures IsLatest(d, k, lo, last) && u <= last
  {
    var keys := ScanVersions(d, k, lo, MAX_VERSION);
    assert Version(k, u) in keys;
    last := keys[|keys| - 1].version;
    var j :| 0 <= j < |keys| && keys[j] == Version(k, u);
    assert keys[|keys| - 1] == Version(k, last);
    hide ScanVersions;
    LatestIsLast(d, k, lo, last, keys);
  }

  /** An open transaction reads its own last write, or else its snapshot. */
  lemma ReadsAgree(st: State, s: Reference, v: Version, k: Bytes, value: Option<Value>)
    requires Matches(st, s) && v in st.open
    ensures Reads(st.data, st.open[v], k, value) <==> value == RefRead(s, v, k)
  {
    var d, t := st.data, st.open[v];
    if k in s.txns[v].writes {
      assert IsEarlier(d, s, v, v);
      assert Version(k, v) in d && Visible(t, v);
      assert IsLastVisible(d, t, k, v);
      OneLastVisible(d, t, k, v);
    } else {
      assert SnapshotAt(d, s, v, k);
      forall u: Version ensures (Version(k, u) in d && Visible(t, u)) <==> Commits(s, v, A(d, v), k, u) {
        assert Version(k, u) in d <==> Wrote(s, u, k);
        assert OpenKnown(d, s, u, v);
      }
      ViewReads(d, s, t, v, A(d, v), k, value, Lookup(s.txns[v].snapshot, k));
    }
  }

  lemma OneLastVisible(d: Data, t: TransactionState, k: Bytes, u: Version)
    requires IsLastVisible(d, t, k, u)
    ensures forall w: Version :: IsLastVisible(d, t, k, w) ==> w == u
  {
  }

  /** A transaction that sees exactly the commits of a view reads the value of the view. */
  lemma ViewReads(d: Data, s: Reference, t: TransactionState, n: Version, a: set<Version>, k: Bytes,
      value: Option<Value>, view: Option<Value>)
    requires Stores(d, s) && IsView(s, n, a, k, view)
    requires forall u: Version :: (Version(k, u) in d && Visible(t, u)) <==> Commits(s, n, a, k, u)
    ensures Reads(d, t, k, value) <==> value == view
  {
    if u :| IsLastCommit(s, n, a, k, u) && view == s.txns[u].writes[k] {
      assert IsLastVisible(d, t, k, u);
      OneLastVisible(d, t, k, u);
      assert d[Version(k, u)].value == view;
      assert Reads(d, t, k, view);
    } else {
      assert forall u: Version :: Version(k, u) in d ==> !Visible(t, u);
    }
  }

  // ---------------------------------------------------------------- begin

  /** Beginning stores the set of open transactions for the new version, and no other. */
  lemma BeginActive(d: Data, s: Reference)
    requires Stores(d, s) && NextOf(d) < MAX_VERSION
    ensures var d' := BeginData(d);
            && WellTyped(d')
            && (forall u: Version :: u in A(d', s.next) <==> IsOpen(s, u))
            && (forall v: Version :: v != s.next ==> A(d', v) == A(d, v))
  {
    forall u: Version ensures u in ActiveSet(d) <==> IsOpen(s, u) { ActiveSetHas(d, u); }
    assert s.next !in s.txns;
    assert TxnActiveSnapshot(s.next) !in d;
  }

  lemma BeginStores(d: Data, s: Reference)
    requires Stores(d, s) && NextOf(d) < MAX_VERSION
    ensures Stores(BeginData(d), RefStep(s, Begin))
  {
    var d', s' := BeginData(d), RefStep(s, Begin);
    BeginActive(d, s);
    BeginRecords(d);
    BeginOpens(s);
    hide BeginData, RefStep, WellTyped, ActiveSet, A, IsOpen, Wrote;
    forall v: Version, k ensures TxnWrite(v, k) in d' <==> IsOpen(s', v) && k in s'.txns[v].writes {
      assert TxnWrite(v, k) in d' <==> TxnWrite(v, k) in d;
      OpenWrites(s, v, k);
    }
    forall v: Version, k ensures Version(k, v) in d' <==> Wrote(s', v, k) {
      assert Version(k, v) in d' <==> Version(k, v) in d;
      OpenWrites(s, v, k);
    }
    forall v: Version, k | Version(k, v) in d' ensures d'[Version(k, v)] == Written(s'.txns[v].writes[k]) {
      assert Version(k, v) in d;
      OpenWrites(s, v, k);
    }
  }

  /** What a begin does to the engine's records. */
  lemma BeginRecords(d: Data)
    requires WellTyped(d) && NextOf(d) < MAX_VERSION
    ensures var d', n := BeginData(d), NextOf(d);
            && NextOf(d') == n + 1
            && (forall v: Version, k :: TxnWrite(v, k) in d' <==> TxnWrite(v, k) in d)
            && (forall v: Version, k :: Version(k, v) in d' <==> Version(k, v) in d)
            && (forall v: Version, k :: Version(k, v) in d ==> d'[Version(k, v)] == d[Version(k, v)])
            && (forall v: Version :: TxnActive(v) in d' <==> TxnActive(v) in d || v == n)
            && (forall v: Version :: TxnActiveSnapshot(v) in d' ==> TxnActiveSnapshot(v) in d || v == n)
  {
  }

  /** What a begin does to the reference. */
  lemma BeginOpens(s: Reference)
    requires s.next < MAX_VERSION && (forall v: Version :: v in s.txns <==> 1 <= v < s.next) && s.next >= 1
    ensures var s' := RefStep(s, Begin);
            && s'.next == s.next + 1
            && (forall v: Version :: v in s'.txns <==> 1 <= v < s'.next)
            && (forall v: Version :: IsOpen(s', v) <==> IsOpen(s, v) || v == s.next)
  {
  }

  lemma OpenWrites(s: Reference, v: Version, k: Bytes)
    requires s.next < MAX_VERSION && s.next !in s.txns
    ensures var s' := RefStep(s, Begin);
            && (Wrote(s', v, k) <==> Wrote(s, v, k)) && (IsOpen(s, v) ==> v in s.txns && v in s'.txns)
            && (IsOpen(s', v) && k in s'.txns[v].writes <==> IsOpen(s, v) && k in s.txns[v].writes)
            && (Wrote(s, v, k) ==> v in s.txns && v in s'.txns && s'.txns[v] == s.txns[v])
  {
  }

  /** Two views are of the same commits. */
  ghost predicate SameCommits(s: Reference, n: Version, a: set<Version>, s': Reference, n': Version, a': set<Version>,
      k: Bytes) {
    forall u: Version ::
      && (Commits(s, n, a, k, u) <==> Commits(s', n', a', k, u))
      && (Commits(s, n, a, k, u) ==> s'.txns[u].writes[k] == s.txns[u].writes[k])
  }

  lemma SameView(s: Reference, n: Version, a: set<Version>, s': Reference, n': Version, a': set<Version>, k: Bytes,
      value: Option<Value>)
    requires SameCommits(s, n, a, s', n', a', k) && IsView(s, n, a, k, value)
    ensures IsView(s', n', a', k, value)
  {
    if u: Version :| IsLastCommit(s, n, a, k, u) && value == s.txns[u].writes[k] {
      assert IsLastCommit(s', n', a', k, u);
    } else {
      assert forall u: Version :: !Commits(s', n', a', k, u);
    }
  }

  /** The reference after a begin; n is the new version. */
  lemma BegunView(s: Reference, s': Reference, n: Version, v: Version, a: set<Version>, k: Bytes)
    requires n == s.next && n !in s.txns && n < MAX_VERSION && s' == RefStep(s, Begin)
    ensures SameCommits(s, v, a, s', v, a, k)
    ensures (forall u :: u in a ==> IsOpen(s, u)) && (forall u :: u in s.txns ==> u < n) ==>
              SameCommits(s, n, {}, s', n, a, k) && SameCommits(s, n, {}, s', n + 1, a, k)
  {
  }

  lemma BeginSnapshots(d: Data, s: Reference)
    requires Stores(d, s) && NextOf(d) < MAX_VERSION && Snapshots(d, s) && CommittedState(s)
    requires WellTyped(BeginData(d))
    ensures Snapshots(BeginData(d), RefStep(s, Begin)) && CommittedState(RefStep(s, Begin))
  {
    var d', s', n := BeginData(d), RefStep(s, Begin), s.next;
    BeginActive(d, s);
    assert n !in s.txns && s'.txns.Keys == s.txns.Keys + {n} && s'.committed == s.committed && s'.next == n + 1;
    assert s'.txns[n].snapshot == s.committed && forall v :: v in s.txns ==> s'.txns[v] == s.txns[v] && v < n;
    hide BeginData, Stores, RefStep, IsView, SameCommits;
    forall v, k | v in s'.txns ensures SnapshotAt(d', s', v, k) {
      BegunView(s, s', n, v, A(d', v), k);
      if v != n {
        assert SnapshotAt(d, s, v, k);
        SameView(s, v, A(d, v), s', v, A(d', v), k, Lookup(s.txns[v].snapshot, k));
      } else {
        assert CommittedAt(s, k);
        SameView(s, n, {}, s', n, A(d', n), k, Lookup(s.committed, k));
      }
    }
    forall k ensures CommittedAt(s', k) {
      BegunView(s, s', n, n, {}, k);
      assert CommittedAt(s, k);
      SameView(s, n, {}, s', n + 1, {}, k, Lookup(s.committed, k));
    }
  }

  lemma BeginHandles(st: State, s: Reference)
    requires Stores(st.data, s) && Handles(st, s) && NextOf(st.data) < MAX_VERSION && WellTyped(BeginData(st.data))
    ensures Handles(Step(st, Begin), RefStep(s, Begin))
  {
    var d, d', s', n := st.data, BeginData(st.data), RefStep(s, Begin), s.next;
    BeginActive(d, s);
    assert forall u: Version :: IsOpen(s', u) <==> u == n || IsOpen(s, u);
    assert ActiveSet(d) == A(d', n) by {
      forall u: Version ensures u in ActiveSet(d) <==> u in A(d', n) { ActiveSetHas(d, u); }
    }
  }

  lemma BeginRest(d: Data, s: Reference)
    requires Stores(d, s) && ActiveSets(d, s) && NoOverlap(d, s) && Seen(d, s)
    requires NextOf(d) < MAX_VERSION && WellTyped(BeginData(d))
    ensures var d', s' := BeginData(d), RefStep(s, Begin);
            ActiveSets(d', s') && NoOverlap(d', s') && Seen(d', s')
  {
    var d', s' := BeginData(d), RefStep(s, Begin);
    BeginActive(d, s);
    hide BeginData;
    forall u, v ensures IsEarlier(d', s', u, v) { assert IsEarlier(d, s, u, v); }
    forall u, v ensures OpenKnown(d', s', u, v) { assert OpenKnown(d, s, u, v); }
    forall u, v, w ensures Nested(d', s', u, v, w) { assert Nested(d, s, u, v, w) && OpenKnown(d, s, u, v); }
    forall u, v, k ensures Apart(d', s', u, v, k) { assert Apart(d, s, u, v, k); }
    forall u, v ensures SeenAt(d', s', u, v) { assert SeenAt(d, s, u, v); }
  }

  lemma BeginMatches(st: State, s: Reference)
    requires Matches(st, s) && NextOf(st.data) < MAX_VERSION
    ensures Matches(Step(st, Begin), RefStep(s, Begin))
  {
    BeginActive(st.data, s);
    hide WellTyped, Stores, Handles, ActiveSets, NoOverlap, Seen, Snapshots, CommittedState, RefStep, BeginData;
    BeginStores(st.data, s);
    BeginSnapshots(st.data, s);
    BeginHandles(st, s);
    BeginRest(st.data, s);
  }

  // ---------------------------------------------------------------- write

  ghost function Recorded(s: Reference, v: Version, k: Bytes, value: Option<Value>): Reference
    requires v in s.txns
  {
    s.(txns := s.txns[v := s.txns[v].(writes := s.txns[v].writes[k := value])])
  }

  lemma WriteFacts(d: Data, s: Reference, v: Version, k: Bytes, value: Option<Value>)
    requires WellTyped(d) && IsOpen(s, v)
    ensures var d', s' := WriteData(d, v, k, value), Recorded(s, v, k, value);
            && WellTyped(d')
            && (forall u: Version :: A(d', u) == A(d, u))
            && (forall u: Version :: IsOpen(s', u) <==> IsOpen(s, u))
            && (forall u: Version, j :: Wrote(s', u, j) <==> Wrote(s, u, j) || (u == v && j == k))
  {
  }

  lemma WriteMatches(st: State, s: Reference, v: Version, k: Bytes, value: Option<Value>)
    requires Matches(st, s) && v in st.open && !RefConflicts(s, v, k)
    ensures v in s.txns && Matches(State(WriteData(st.data, v, k, value), st.open), Recorded(s, v, k, value))
  {
    assert IsOpen(s, v) && WellTyped(st.data);
    hide Stores, ActiveSets, NoOverlap, Seen, Snapshots, CommittedState, WriteData, Recorded, WellTyped, RefConflicts;
    WriteFacts(st.data, s, v, k, value);
    WriteStores(st.data, s, v, k, value);
    WriteActive(st.data, s, v, k, value);
    WriteOverlap(st.data, s, v, k, value);
    WriteViews(st.data, s, v, k, value);
  }

  lemma WriteStores(d: Data, s: Reference, v: Version, k: Bytes, value: Option<Value>)
    requires Stores(d, s) && IsOpen(s, v)
    ensures Stores(WriteData(d, v, k, value), Recorded(s, v, k, value))
  {
    WriteFacts(d, s, v, k, value);
  }

  lemma WriteActive(d: Data, s: Reference, v: Version, k: Bytes, value: Option<Value>)
    requires Stores(d, s) && IsOpen(s, v) && ActiveSets(d, s) && Seen(d, s) && WellTyped(WriteData(d, v, k, value))
    ensures ActiveSets(WriteData(d, v, k, value), Recorded(s, v, k, value))
    ensures Seen(WriteData(d, v, k, value), Recorded(s, v, k, value))
  {
    var d', s' := WriteData(d, v, k, value), Recorded(s, v, k, value);
    WriteFacts(d, s, v, k, value);
    hide WriteData;
    forall u, w ensures IsEarlier(d', s', u, w) { assert IsEarlier(d, s, u, w); }
    forall u, w ensures OpenKnown(d', s', u, w) { assert OpenKnown(d, s, u, w); }
    forall u, w, x ensures Nested(d', s', u, w, x) { assert Nested(d, s, u, w, x); }
    forall u, w ensures SeenAt(d', s', u, w) { assert SeenAt(d, s, u, w); }
  }

  lemma WriteOverlap(d: Data, s: Reference, v: Version, k: Bytes, value: Option<Value>)
    requires Stores(d, s) && IsOpen(s, v) && NoOverlap(d, s) && Seen(d, s) && !RefConflicts(s, v, k)
    requires WellTyped(WriteData(d, v, k, value))
    ensures NoOverlap(WriteData(d, v, k, value), Recorded(s, v, k, value))
  {
    var d', s' := WriteData(d, v, k, value), Recorded(s, v, k, value);
    WriteFacts(d, s, v, k, value);
    hide WriteData, Recorded;
    forall u, w, j ensures Apart(d', s', u, w, j) {
      assert Apart(d, s, u, w, j) && SeenAt(d, s, u, v) && SeenAt(d, s, w, v);
    }
  }

  lemma WriteViews(d: Data, s: Reference, v: Version, k: Bytes, value: Option<Value>)
    requires WellTyped(d) && IsOpen(s, v) && Snapshots(d, s) && CommittedState(s)
    requires WellTyped(WriteData(d, v, k, value))
    ensures Snapshots(WriteData(d, v, k, value), Recorded(s, v, k, value)) && CommittedState(Recorded(s, v, k, value))
  {
    var d', s' := WriteData(d, v, k, value), Recorded(s, v, k, value);
    WriteFacts(d, s, v, k, value);
    forall w, j | w in s'.txns ensures SnapshotAt(d', s', w, j) {
      assert SnapshotAt(d, s, w, j) && SameCommits(s, w, A(d, w), s', w, A(d', w), j);
      SameView(s, w, A(d, w), s', w, A(d', w), j, Lookup(s.txns[w].snapshot, j));
    }
    forall j ensures CommittedAt(s', j) {
      assert CommittedAt(s, j) && SameCommits(s, s.next, {}, s', s'.next, {}, j);
      SameView(s, s.next, {}, s', s'.next, {}, j, Lookup(s.committed, j));
    }
  }

  // ---------------------------------------------------------------- commit and rollback

  ghost function Ended(s: Reference, v: Version, status: Status): Reference
    requires v in s.txns
  {
    s.(txns := s.txns[v := s.txns[v].(status := status)])
  }

  /** What the end of v leaves in the engine. */
  ghost function EndData(d: Data, v: Version, status: Status): Data {
    if status == Committed then CommitData(d, v) else RollbackData(d, v)
  }

  lemma EndFacts(d: Data, s: Reference, v: Version, status: Status)
    requires WellTyped(d) && IsOpen(s, v) && status != Open
    ensures var d', s' := EndData(d, v, status), Ended(s, v, status);
            && WellTyped(d')
            && (forall u: Version :: A(d', u) == A(d, u))
            && (forall u: Version :: IsOpen(s', u) <==> IsOpen(s, u) && u != v)
            && (forall u: Version, k :: Wrote(s', u, k) <==> Wrote(s, u, k) && (u == v ==> status == Committed))
  {
  }

  lemma EndStores(d: Data, s: Reference, v: Version, status: Status)
    requires Stores(d, s) && IsOpen(s, v) && status != Open
    ensures Stores(EndData(d, v, status), Ended(s, v, status))
  {
    var d', s' := EndData(d, v, status), Ended(s, v, status);
    EndFacts(d, s, v, status);
    forall u: Version, k ensures Version(k, u) in d' <==> Wrote(s', u, k) {
      assert Version(k, u) in d <==> Wrote(s, u, k);
      assert TxnWrite(u, k) in d <==> IsOpen(s, u) && k in s.txns[u].writes;
    }
  }

  lemma EndActive(d: Data, s: Reference, v: Version, status: Status)
    requires Stores(d, s) && IsOpen(s, v) && status != Open && ActiveSets(d, s) && NoOverlap(d, s) && Seen(d, s)
    requires WellTyped(EndData(d, v, status))
    ensures var d', s' := EndData(d, v, status), Ended(s, v, status);
            ActiveSets(d', s') && NoOverlap(d', s') && Seen(d', s')
  {
    var d', s' := EndData(d, v, status), Ended(s, v, status);
    EndFacts(d, s, v, status);
    hide EndData;
    forall u, w ensures IsEarlier(d', s', u, w) { assert IsEarlier(d, s, u, w); }
    forall u, w ensures OpenKnown(d', s', u, w) { assert OpenKnown(d, s, u, w); }
    forall u, w, x ensures Nested(d', s', u, w, x) { assert Nested(d, s, u, w, x); }
    forall u, w, k ensures Apart(d', s', u, w, k) { assert Apart(d, s, u, w, k); }
    forall u, w ensures SeenAt(d', s', u, w) { assert SeenAt(d, s, u, w) && OpenKnown(d, s, u, w); }
  }

  lemma EndSnapshots(d: Data, s: Reference, v: Version, status: Status)
    requires WellTyped(d) && IsOpen(s, v) && status != Open && ActiveSets(d, s) && Snapshots(d, s)
    requires WellTyped(EndData(d, v, status))
    ensures Snapshots(EndData(d, v, status), Ended(s, v, status))
  {
    var d', s' := EndData(d, v, status), Ended(s, v, status);
    EndFacts(d, s, v, status);
    hide EndData;
    forall w, k | w in s'.txns ensures SnapshotAt(d', s', w, k) {
      assert SnapshotAt(d, s, w, k) && OpenKnown(d, s, v, w);
      assert SameCommits(s, w, A(d, w), s', w, A(d', w), k);
      SameView(s, w, A(d, w), s', w, A(d', w), k, Lookup(s.txns[w].snapshot, k));
    }
  }

  /** A committing transaction is the last to have written each of its keys. */
  lemma CommitIsLast(d: Data, s: Reference, v: Version, k: Bytes)
    requires WellTyped(d) && IsOpen(s, v) && ActiveSets(d, s) && NoOverlap(d, s) && v < s.next && k in s.txns[v].writes
    ensures IsLastCommit(Ended(s, v, Committed), s.next, {}, k, v)
  {
    var s' := Ended(s, v, Committed);
    forall u: Version | Commits(s', s.next, {}, k, u) ensures u <= v {
      assert Apart(d, s, v, u, k) && OpenKnown(d, s, v, u);
    }
  }

  lemma CommitStateAt(d: Data, s: Reference, v: Version, s': Reference, k: Bytes)
    requires WellTyped(d) && IsOpen(s, v) && v < s.next && ActiveSets(d, s) && NoOverlap(d, s) && CommittedAt(s, k)
    requires s' == Ended(s, v, Committed).(committed := s'.committed)
    requires Lookup(s'.committed, k) == if k in s.txns[v].writes then s.txns[v].writes[k] else Lookup(s.committed, k)
    ensures CommittedAt(s', k)
  {
    if k in s.txns[v].writes {
      CommitIsLast(d, s, v, k);
      hide ActiveSets, NoOverlap, WellTyped;
      LastCommitSame(Ended(s, v, Committed), s', s.next, k, v);
    } else {
      EndSameCommits(s, v, s', k);
      hide *;
      CommittedMoves(s, s', k);
    }
  }

  lemma EndSameCommits(s: Reference, v: Version, s': Reference, k: Bytes)
    requires IsOpen(s, v) && s' == Ended(s, v, Committed).(committed := s'.committed) && k !in s.txns[v].writes
    ensures SameCommits(s, s.next, {}, s', s'.next, {}, k)
  {
  }

  lemma CommittedMoves(s: Reference, s': Reference, k: Bytes)
    requires SameCommits(s, s.next, {}, s', s'.next, {}, k) && CommittedAt(s, k)
    requires Lookup(s'.committed, k) == Lookup(s.committed, k)
    ensures CommittedAt(s', k)
  {
    hide SameCommits, IsView;
    SameView(s, s.next, {}, s', s'.next, {}, k, Lookup(s.committed, k));
  }

  lemma LastCommitSame(s: Reference, s': Reference, n: Version, k: Bytes, v: Version)
    requires s'.txns == s.txns && IsLastCommit(s, n, {}, k, v)
    ensures IsLastCommit(s', n, {}, k, v)
  {
    assert forall u: Version :: Commits(s', n, {}, k, u) <==> Commits(s, n, {}, k, u);
  }

  lemma CommitState(d: Data, s: Reference, v: Version)
    requires Stores(d, s) && IsOpen(s, v) && ActiveSets(d, s) && NoOverlap(d, s) && CommittedState(s)
    ensures CommittedState(Ended(s, v, Committed).(committed := Overlay(s.committed, s.txns[v].writes)))
  {
    var committed := Overlay(s.committed, s.txns[v].writes);
    var s' := Ended(s, v, Committed).(committed := committed);
    assert WellTyped(d) && v < s.next;
    hide Stores, ActiveSets, NoOverlap, WellTyped, CommittedAt, Ended, Overlay;
    forall k ensures CommittedAt(s', k) {
      assert CommittedAt(s, k);
      CommitStateAt(d, s, v, s', k);
    }
  }

  lemma RollbackState(s: Reference, v: Version)
    requires IsOpen(s, v) && CommittedState(s)
    ensures CommittedState(Ended(s, v, RolledBack))
  {
    var s' := Ended(s, v, RolledBack);
    forall k ensures CommittedAt(s', k) {
      assert CommittedAt(s, k) && SameCommits(s, s.next, {}, s', s'.next, {}, k);
      SameView(s, s.next, {}, s', s'.next, {}, k, Lookup(s.committed, k));
    }
  }

  /** Only the committed state may differ. */
  lemma SameBut(d: Data, s: Reference, s': Reference)
    requires s' == s.(committed := s'.committed) && Stores(d, s)
    ensures Stores(d, s')
    ensures ActiveSets(d, s) ==> ActiveSets(d, s')
    ensures NoOverlap(d, s) ==> NoOverlap(d, s')
    ensures Seen(d, s) ==> Seen(d, s')
    ensures Snapshots(d, s) ==> Snapshots(d, s')
  {
    if ActiveSets(d, s) {
      forall u, w ensures IsEarlier(d, s', u, w) { assert IsEarlier(d, s, u, w); }
      forall u, w ensures OpenKnown(d, s', u, w) { assert OpenKnown(d, s, u, w); }
      forall u, w, x ensures Nested(d, s', u, w, x) { assert Nested(d, s, u, w, x); }
    }
    if NoOverlap(d, s) { forall u, w, k ensures Apart(d, s', u, w, k) { assert Apart(d, s, u, w, k); } }
    if Seen(d, s) { forall u, w ensures SeenAt(d, s', u, w) { assert SeenAt(d, s, u, w); } }
    if Snapshots(d, s) {
      forall w, k | w in s'.txns ensures SnapshotAt(d, s', w, k) {
        assert SnapshotAt(d, s, w, k) && SameCommits(s, w, A(d, w), s', w, A(d, w), k);
        SameView(s, w, A(d, w), s', w, A(d, w), k, Lookup(s.txns[w].snapshot, k));
      }
    }
  }

  lemma EndMatches(st: State, s: Reference, v: Version, status: Status)
    requires Matches(st, s) && v in st.open && status != Open
    ensures v in s.txns
    ensures var e := Ended(s, v, status);
            Matches(State(EndData(st.data, v, status), st.open - {v}),
                    if status == Committed then e.(committed := Overlay(s.committed, s.txns[v].writes)) else e)
  {
    var d, d', e := st.data, EndData(st.data, v, status), Ended(s, v, status);
    var s' := if status == Committed then e.(committed := Overlay(s.committed, s.txns[v].writes)) else e;
    assert IsOpen(s, v) && WellTyped(d) && s' == e.(committed := s'.committed);
    EndFacts(d, s, v, status);
    assert Handles(State(d', st.open - {v}), e);
    assert Handles(State(d', st.open - {v}), s');
    hide *;
    MatchParts(st, s);
    EndStores(d, s, v, status);
    EndActive(d, s, v, status);
    EndSnapshots(d, s, v, status);
    if status == Committed { CommitState(d, s, v); } else { RollbackState(s, v); }
    SameBut(d', e, s');
    MatchesFrom(State(d', st.open - {v}), s');
  }

  lemma MatchParts(st: State, s: Reference)
    requires Matches(st, s)
    ensures WellTyped(st.data) && Stores(st.data, s) && Handles(st, s) && ActiveSets(st.data, s)
    ensures NoOverlap(st.data, s)
    ensures Seen(st.data, s) && Snapshots(st.data, s) && CommittedState(s)
  {
  }

  lemma MatchesFrom(st: State, s: Reference)
    requires WellTyped(st.data) && Stores(st.data, s) && Handles(st, s) && ActiveSets(st.data, s)
    requires NoOverlap(st.data, s)
    requires Seen(st.data, s) && Snapshots(st.data, s) && CommittedState(s)
    ensures Matches(st, s)
  {
  }

  /** The value of a view is unique. */
  lemma ViewUnique(s: Reference, n: Version, a: set<Version>, k: Bytes, x: Option<Value>, y: Option<Value>)
    requires IsView(s, n, a, k, x) && IsView(s, n, a, k, y)
    ensures x == y
  {
  }

  /** Nobody has committed a key that an open transaction wrote since it began. */
  lemma WrittenUntouched(st: State, s: Reference, v: Version, k: Bytes)
    requires Matches(st, s) && v in st.open && v in s.txns && k in s.txns[v].writes
    ensures Lookup(s.committed, k) == Lookup(s.txns[v].snapshot, k)
  {
    MatchParts(st, s);
    var d := st.data;
    assert IsOpen(s, v) && v < s.next && SnapshotAt(d, s, v, k) && CommittedAt(s, k);
    assert forall u: Version :: u in s.txns ==> u < s.next;
    hide Matches, Stores, Handles, ActiveSets, NoOverlap, Seen, Snapshots, CommittedState, WellTyped, A;
    WrittenCommits(d, s, v, k);
    SameView(s, v, A(d, v), s, s.next, {}, k, Lookup(s.txns[v].snapshot, k));
    ViewUnique(s, s.next, {}, k, Lookup(s.txns[v].snapshot, k), Lookup(s.committed, k));
  }

  /** The commits of a key that an open transaction wrote are those it saw. */
  lemma WrittenCommits(d: Data, s: Reference, v: Version, k: Bytes)
    requires WellTyped(d) && ActiveSets(d, s) && NoOverlap(d, s) && IsOpen(s, v) && v < s.next && k in s.txns[v].writes
    requires forall u: Version :: u in s.txns ==> u < s.next
    ensures SameCommits(s, v, A(d, v), s, s.next, {}, k)
  {
    hide WellTyped, A;
    forall u: Version ensures Commits(s, v, A(d, v), k, u) <==> Commits(s, s.next, {}, k, u) {
      assert Apart(d, s, u, v, k) && Apart(d, s, v, u, k) && OpenKnown(d, s, v, u);
    }
  }

  // ---------------------------------------------------------------- runs

  lemma StepMatches(st: State, s: Reference, ev: Event)
    requires Matches(st, s) && Enabled(st, ev)
    ensures RefEnabled(s, ev) && Matches(Step(st, ev), RefStep(s, ev))
  {
    MatchParts(st, s);
    match ev
    case Begin => BeginMatches(st, s);
    case Write(v, k, value) =>
      ConflictsAgree(st, s, v, k);
      if !RefConflicts(s, v, k) { WriteMatches(st, s, v, k, value); }
    case Commit(v) => EndMatches(st, s, v, Committed);
    case Rollback(v) => EndMatches(st, s, v, RolledBack);
  }

  /** A run of the engine, from an empty one. */
  datatype Run = Run(states: seq<State>, events: seq<Event>)

  ghost predicate ValidRun(r: Run) {
    && |r.states| == |r.events| + 1
    && r.states[0] == State(map[], map[])
    && forall k :: 0 <= k < |r.events| ==> StepAt(r, k)
  }

  ghost predicate StepAt(r: Run, k: nat)
    requires k < |r.events| && k + 1 < |r.states|
  {
    Enabled(r.states[k], r.events[k]) && r.states[k + 1] == Step(r.states[k], r.events[k])
  }

  /** The reference after the first k events of a run. */
  ghost function RefAt(r: Run, k: nat): (s: Reference)
    requires ValidRun(r) && k < |r.states|
    ensures Matches(r.states[k], s)
  {
    if k == 0 then
      StartMatches();
      EMPTY
    else
      var s := RefAt(r, k - 1);
      assert StepAt(r, k - 1);
      StepMatches(r.states[k - 1], s, r.events[k - 1]);
      RefStep(s, r.events[k - 1])
  }

  lemma StartMatches()
    ensures Matches(State(map[], map[]), EMPTY)
  {
    var d: Data := map[];
    forall u, v ensures IsEarlier(d, EMPTY, u, v) { }
    forall u, v ensures OpenKnown(d, EMPTY, u, v) { }
    forall u, v, w ensures Nested(d, EMPTY, u, v, w) { }
    forall u, v, k ensures Apart(d, EMPTY, u, v, k) { }
    forall u, v ensures SeenAt(d, EMPTY, u, v) { }
    forall k ensures CommittedAt(EMPTY, k) { }
  }

  /** Snapshot isolation: in every run, an open transaction reads exactly what the reference
      says: its own last write to the key, or else the state committed when it began. */
  lemma SnapshotIsolation(r: Run, j: nat, v: Version, k: Bytes, value: Option<Value>)
    requires ValidRun(r) && j < |r.states| && v in r.states[j].open
    ensures v in RefAt(r, j).txns
    ensures Reads(r.states[j].data, r.states[j].open[v], k, value) <==> value == RefRead(RefAt(r, j), v, k)
  {
    ReadsAgree(r.states[j], RefAt(r, j), v, k, value);
  }

  /** A write is refused exactly if another transaction wrote the key, did not roll back, and
      had not committed when this one began. */
  lemma FirstWriterWins(r: Run, j: nat, v: Version, k: Bytes)
    requires ValidRun(r) && j < |r.states| && v in r.states[j].open
    ensures v in RefAt(r, j).txns
    ensures Conflicts(r.states[j].data, r.states[j].open[v], k) <==> RefConflicts(RefAt(r, j), v, k)
  {
    ConflictsAgree(r.states[j], RefAt(r, j), v, k);
  }

  /** Concurrent transactions that both committed wrote different keys. */
  lemma ConcurrentWritersDisjoint(r: Run, j: nat, u: Version, v: Version)
    requires ValidRun(r) && j < |r.states| && u != v
    requires var s := RefAt(r, j);
             && u in s.txns && v in s.txns && s.txns[u].status == Committed && s.txns[v].status == Committed
             && u !in s.txns[v].seen && v !in s.txns[u].seen
    ensures RefAt(r, j).txns[u].writes.Keys !! RefAt(r, j).txns[v].writes.Keys
  {
    hide *;
    var s, d := RefAt(r, j), r.states[j].data;
    MatchParts(r.states[j], s);
    forall k ensures !(k in s.txns[u].writes && k in s.txns[v].writes) {
      if u < v { OverlapSeen(d, s, u, v, k); } else { OverlapSeen(d, s, v, u, k); }
    }
  }

  lemma OverlapSeen(d: Data, s: Reference, u: Version, v: Version, k: Bytes)
    requires WellTyped(d) && NoOverlap(d, s) && Seen(d, s)
    requires u in s.txns && v in s.txns && s.txns[u].status == Committed && s.txns[v].status == Committed && u < v
    ensures k in s.txns[u].writes && k in s.txns[v].writes ==> u in s.txns[v].seen
  {
    assert Apart(d, s, u, v, k) && SeenAt(d, s, u, v);
  }

  // ---------------------------------------------------------------- what stays

  /** What is known of a transaction stays: its snapshot always, and all of it once ended. */
  ghost predicate Stays(s: Reference, s': Reference, v: Version)
    requires v in s.txns
  {
    && v in s'.txns && s'.txns[v].snapshot == s.txns[v].snapshot && s'.txns[v].seen == s.txns[v].seen
    && (s.txns[v].status != Open ==> s'.txns[v] == s.txns[v])
  }

  lemma {:induction false} TxnsStay(r: Run, a: nat, b: nat, v: Version)
    requires ValidRun(r) && a <= b < |r.states| && v in RefAt(r, a).txns
    ensures Stays(RefAt(r, a), RefAt(r, b), v)
    ensures WellTyped(r.states[a].data) && WellTyped(r.states[b].data)
    ensures A(r.states[a].data, v) == A(r.states[b].data, v)
    decreases b - a
  {
    hide *;
    MatchParts(r.states[a], RefAt(r, a));
    if a == b {
      StaysSame(RefAt(r, a), v);
    } else {
      var c := b - 1;
      TxnsStay(r, a, c, v);
      EventsOf(r);
      RefNext(r, c);
      StaysIn(RefAt(r, a), RefAt(r, c), v);
      StepStays(r.states[c], RefAt(r, c), r.events[c], v);
      DataStays(r.states[c], RefAt(r, c), r.events[c], v);
      StaysOn(RefAt(r, a), RefAt(r, c), RefAt(r, b), v);
    }
  }

  lemma EventsOf(r: Run)
    requires ValidRun(r)
    ensures |r.states| == |r.events| + 1
  {
  }

  lemma StaysIn(s: Reference, s': Reference, v: Version)
    requires v in s.txns && Stays(s, s', v)
    ensures v in s'.txns
  {
  }

  lemma StaysSame(s: Reference, v: Version)
    requires v in s.txns
    ensures Stays(s, s, v)
  {
  }

  lemma StaysOn(s: Reference, s': Reference, s'': Reference, v: Version)
    requires v in s.txns && v in s'.txns && Stays(s, s', v) && Stays(s', s'', v)
    ensures Stays(s, s'', v)
  {
  }

  /** The reference moves with the run. */
  lemma RefNext(r: Run, k: nat)
    requires ValidRun(r) && k < |r.events|
    ensures |r.states| == |r.events| + 1
    ensures Enabled(r.states[k], r.events[k]) && r.states[k + 1] == Step(r.states[k], r.events[k])
    ensures RefEnabled(RefAt(r, k), r.events[k]) && RefAt(r, k + 1) == RefStep(RefAt(r, k), r.events[k])
    ensures Matches(r.states[k], RefAt(r, k)) && Matches(r.states[k + 1], RefAt(r, k + 1))
  {
    hide Matches, Step, RefStep, RefEnabled;
    assert StepAt(r, k);
    StepMatches(r.states[k], RefAt(r, k), r.events[k]);
  }

  lemma StepStays(st: State, s: Reference, ev: Event, v: Version)
    requires Matches(st, s) && RefEnabled(s, ev) && v in s.txns
    ensures Stays(s, RefStep(s, ev), v)
  {
    MatchParts(st, s);
    assert s.next !in s.txns;
    hide Matches, Stores, Handles, ActiveSets, NoOverlap, Seen, Snapshots, CommittedState, WellTyped;
  }

  lemma DataStays(st: State, s: Reference, ev: Event, v: Version)
    requires Matches(st, s) && Enabled(st, ev) && v in s.txns
    ensures WellTyped(st.data) && WellTyped(Step(st, ev).data) && A(Step(st, ev).data, v) == A(st.data, v)
  {
    MatchParts(st, s);
    if ev.Begin? {
      BeginActive(st.data, s);
    } else {
      assert IsOpen(s, ev.version);
      hide Matches, Stores, ActiveSets, NoOverlap, Seen, Snapshots, CommittedState, Conflicts;
      match ev
      case Write(u, k, value) => WriteFacts(st.data, s, u, k, value);
      case Commit(u) => EndFacts(st.data, s, u, Committed);
      case Rollback(u) => EndFacts(st.data, s, u, RolledBack);
    }
  }

  /** Every transaction's snapshot is the state that was committed when it began, however
      much later it is looked at. */
  lemma SnapshotFixed(r: Run, a: nat, b: nat)
    requires ValidRun(r) && a < b < |r.states| && r.events[a].Begin?
    ensures var v := RefAt(r, a).next;
            v in RefAt(r, b).txns && RefAt(r, b).txns[v].snapshot == RefAt(r, a).committed
  {
    hide *;
    EventsOf(r);
    RefNext(r, a);
    BegunTxn(RefAt(r, a));
    TxnsStay(r, a + 1, b, RefAt(r, a).next);
    SameSnapshot(RefAt(r, a + 1), RefAt(r, b), RefAt(r, a).next);
  }

  lemma BegunTxn(s: Reference)
    requires RefEnabled(s, Begin)
    ensures s.next in RefStep(s, Begin).txns && RefStep(s, Begin).txns[s.next].snapshot == s.committed
  {
  }

  lemma SameSnapshot(s: Reference, s': Reference, v: Version)
    requires v in s.txns && Stays(s, s', v)
    ensures v in s'.txns && s'.txns[v].snapshot == s.txns[v].snapshot
  {
  }

  /** Time travel: a read-only transaction as of version v sees exactly what the read-write
      transaction v saw when it began, whatever became of v. */
  lemma TimeTravel(r: Run, a: nat, b: nat, v: Version, k: Bytes, value: Option<Value>)
    requires ValidRun(r) && a <= b < |r.states| && v in RefAt(r, a).txns
    ensures WellTyped(r.states[a].data) && WellTyped(r.states[b].data)
    ensures BeginReadOnlyState(r.states[a].data, Some(v)).Ok?
    ensures v in RefAt(r, b).txns
    ensures var t := BeginReadOnlyState(r.states[a].data, Some(v)).value;
            Reads(r.states[b].data, t, k, value) <==> value == Lookup(RefAt(r, b).txns[v].snapshot, k)
  {
    TxnsStay(r, a, b, v);
    var d, s, t := r.states[b].data, RefAt(r, b), TransactionState(v, true, A(r.states[b].data, v));
    MatchParts(r.states[a], RefAt(r, a));
    MatchParts(r.states[b], s);
    assert BeginReadOnlyState(r.states[a].data, Some(v)) == Ok(t);
    SnapshotReads(d, s, v, k, value);
  }

  /** As of version 0, which no transaction has, there is nothing. */
  lemma TimeTravelToStart(r: Run, a: nat, b: nat, k: Bytes, value: Option<Value>)
    requires ValidRun(r) && a <= b < |r.states|
    ensures WellTyped(r.states[a].data) && WellTyped(r.states[b].data)
    ensures BeginReadOnlyState(r.states[a].data, Some(0)).Ok?
    ensures Reads(r.states[b].data, BeginReadOnlyState(r.states[a].data, Some(0)).value, k, value) <==> value == None
  {
    MatchParts(r.states[a], RefAt(r, a));
    MatchParts(r.states[b], RefAt(r, b));
  }

  lemma SnapshotReads(d: Data, s: Reference, v: Version, k: Bytes, value: Option<Value>)
    requires Stores(d, s) && ActiveSets(d, s) && Snapshots(d, s) && v in s.txns
    ensures Reads(d, TransactionState(v, true, A(d, v)), k, value) <==> value == Lookup(s.txns[v].snapshot, k)
  {
    assert SnapshotAt(d, s, v, k);
    forall u: Version | IsOpen(s, u) && u < v ensures u in A(d, v) { assert OpenKnown(d, s, u, v); }
    hide Stores, ActiveSets, Snapshots, A;
    FrozenReads(d, s, TransactionState(v, true, A(d, v)), v, A(d, v), k, value, Lookup(s.txns[v].snapshot, k));
  }

  /** A read-only transaction, which sees versions below n outside a, where all of those have
      ended, reads the value of that view. */
  lemma FrozenReads(d: Data, s: Reference, t: TransactionState, n: Version, a: set<Version>, k: Bytes,
      value: Option<Value>, view: Option<Value>)
    requires Stores(d, s) && IsView(s, n, a, k, view) && t == TransactionState(n, true, a)
    requires forall u: Version :: IsOpen(s, u) && u < n ==> u in a
    ensures Reads(d, t, k, value) <==> value == view
  {
    forall u: Version ensures (Version(k, u) in d && Visible(t, u)) <==> Commits(s, n, a, k, u) {
      assert Version(k, u) in d <==> Wrote(s, u, k);
    }
    ViewReads(d, s, t, n, a, k, value, view);
  }

  /** A read-only transaction sees the state committed when it began, however long it runs. */
  lemma ReadOnlySnapshot(r: Run, a: nat, b: nat, k: Bytes, value: Option<Value>)
    requires ValidRun(r) && a <= b < |r.states|
    ensures WellTyped(r.states[a].data) && WellTyped(r.states[b].data)
    ensures BeginReadOnlyState(r.states[a].data, None).Ok?
    ensures var t := BeginReadOnlyState(r.states[a].data, None).value;
            Reads(r.states[b].data, t, k, value) <==> value == Lookup(RefAt(r, a).committed, k)
  {
    hide *;
    var d, s, d', s' := r.states[a].data, RefAt(r, a), r.states[b].data, RefAt(r, b);
    MatchParts(r.states[a], s);
    MatchParts(r.states[b], s');
    forall u: Version | u in s.txns ensures Stays(s, s', u) { TxnsStay(r, a, b, u); }
    FrozenCommits(d, s, d', s', k);
    BeginsReadOnly(d, s);
    FrozenReads(d', s', TransactionState(s.next, true, ActiveSet(d)), s.next, ActiveSet(d), k, value,
        Lookup(s.committed, k));
  }

  lemma BeginsReadOnly(d: Data, s: Reference)
    requires Stores(d, s)
    ensures BeginReadOnlyState(d, None) == Ok(TransactionState(s.next, true, ActiveSet(d)))
  {
  }

  /** The committed state of one moment stays a view of every later one. */
  lemma FrozenCommits(d: Data, s: Reference, d': Data, s': Reference, k: Bytes)
    requires Stores(d, s) && Stores(d', s') && CommittedState(s)
    requires forall u: Version :: u in s.txns ==> Stays(s, s', u)
    ensures IsView(s', s.next, ActiveSet(d), k, Lookup(s.committed, k))
    ensures forall u: Version :: IsOpen(s', u) && u < s.next ==> u in ActiveSet(d)
  {
    var n, active := s.next, ActiveSet(d);
    forall u: Version ensures u in active <==> IsOpen(s, u) { ActiveSetHas(d, u); }
    assert CommittedAt(s, k);
    forall u: Version | u < n ensures u in s'.txns <==> u in s.txns { assert u in s.txns ==> Stays(s, s', u); }
    assert SameCommits(s, n, {}, s', n, active, k);
    SameView(s, n, {}, s', n, active, k, Lookup(s.committed, k));
  }
}
