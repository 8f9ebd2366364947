/** The batched scan iterator (src/storage/mvcc.rs): it holds the engine only while it fills
    its buffer, so other transactions may act between batches. */
module MvccScan {
  import opened Basics
  import opened Keycode
  import opened MvccKey
  import opened Mvcc
  import opened MvccIsolation

  /** The visible versions and their values. */
  type View = map<Key, Option<Value>>

  function ViewOf(data: Data, t: TransactionState): View
    requires WellTyped(data)
  {
    map k | k in data && k.Version? && Visible(t, k.version) :: data[k].value
  }

  ghost predicate OnlyVersions(q: seq<Key>) {
    forall i :: 0 <= i < |q| ==> q[i].Version?
  }

  /** A byte range that holds no other keys than versions. */
  ghost predicate VersionRange(r: Range) {
    forall k :: InRange(r, Encode(k)) ==> k.Version?
  }

  /** The versions of a view in a range, in order. */
  function Versions(view: View, r: Range): (q: seq<Key>)
    ensures forall k :: k in q <==> k in view && InRange(r, Encode(k))
    ensures IsSorted(q)
  {
    InOrder(set k | k in view && InRange(r, Encode(k)))
  }

  /** The live pairs of a sorted list of versions: of each user key the last version, unless
      it is a tombstone. */
  function Live(view: View, q: seq<Key>): seq<(Bytes, Value)>
    requires OnlyVersions(q) && forall k :: k in q ==> k in view
  {
    if q == [] then []
    else if |q| > 1 && q[1].key == q[0].key then Live(view, q[1..])
    else (if view[q[0]].Some? then [(q[0].key, view[q[0]].value)] else []) + Live(view, q[1..])
  }

  // ---------------------------------------------------------------- sorted lists

  /** A sorted list is determined by its elements. */
  lemma {:induction false} SortedUnique(a: seq<Key>, b: seq<Key>)
    requires IsSorted(a) && IsSorted(b) && forall k :: k in a <==> k in b
    ensures a == b
  {
    assert a == [] <==> b == [] by {
      if a != [] { assert a[0] in b; }
      if b != [] { assert b[0] in a; }
    }
    if a != [] {
      assert a[0] in b;
      assert b[0] in a;
      FirstOfSorted(a, b[0]);
      FirstOfSorted(b, a[0]);
      CompareKeysFlip(a[0], b[0]);
      CompareKeysEqual(a[0], b[0]);
      TailElements(a);
      TailElements(b);
      SortedUnique(a[1..], b[1..]);
      assert a == [a[0]] + a[1..] && b == [b[0]] + b[1..];
    }
  }

  lemma FirstOfSorted(a: seq<Key>, k: Key)
    requires IsSorted(a) && k in a
    ensures CompareKeys(a[0], k) != Greater
  {
    var j :| 0 <= j < |a| && a[j] == k;
    if j == 0 { CompareKeysEqual(a[0], a[0]); }
  }

  lemma TailElements(a: seq<Key>)
    requires IsSorted(a) && a != []
    ensures IsSorted(a[1..])
    ensures forall k :: k in a[1..] <==> k in a && k != a[0]
  {
    forall k | k in a && k != a[0] ensures k in a[1..] {
      var j :| 0 <= j < |a| && a[j] == k;
      assert a[1..][j - 1] == k;
    }
    forall k | k in a[1..] ensures k in a && k != a[0] {
      var j :| 0 <= j < |a[1..]| && a[1..][j] == k;
      assert a[j + 1] == k;
      CompareKeysEqual(a[0], a[j + 1]);
    }
  }

  /** q lists the versions of a view in a range. */
  ghost predicate Lists(view: View, r: Range, q: seq<Key>) {
    (forall k :: k in q <==> k in view && InRange(r, Encode(k))) && IsSorted(q)
  }

  lemma RestMember(view: View, r: Range, q: seq<Key>, i: nat, k: Key)
    requires Lists(view, r, q) && i < |q|
    ensures k in q[i..] <==> k in view && InRange(Range(Included(Encode(q[i])), r.end), Encode(k))
  {
    hide Encode, Compare, CompareKeys;
    assert q[i] in q;
    KeyOrder(q[i], k);
    if k in q[i..] {
      var j :| 0 <= j < |q[i..]| && q[i..][j] == k;
      assert q[i + j] == k && k in q;
      if j == 0 { CompareKeysEqual(k, k); }
    }
    if k in view && InRange(Range(Included(Encode(q[i])), r.end), Encode(k)) {
      StartReached(r.start, Encode(q[i]), Encode(k));
      assert k in q;
      var j :| 0 <= j < |q| && q[j] == k;
      CompareKeysFlip(q[j], q[i]);
      if j >= i { assert q[i..][j - i] == k; }
    }
  }

  /** What is left of a range from its i-th version on. */
  lemma RestOfRange(view: View, r: Range, i: nat)
    requires i < |Versions(view, r)|
    ensures var q := Versions(view, r);
            Versions(view, Range(Included(Encode(q[i])), r.end)) == q[i..]
  {
    var q := Versions(view, r);
    var p := Versions(view, Range(Included(Encode(q[i])), r.end));
    hide Versions, Encode, InRange, CompareKeys;
    assert Lists(view, r, q);
    forall k ensures k in p <==> k in q[i..] { RestMember(view, r, q, i, k); }
    SortedUnique(p, q[i..]);
  }

  lemma StartReached(start: Bound<Bytes>, a: Bytes, b: Bytes)
    requires AfterStart(start, a) && Compare(a, b) != Greater
    ensures AfterStart(start, b)
  {
    if !start.Unbounded? { CompareTransitive(start.bound, a, b); }
  }

  lemma OnlyVersionsIn(view: View, r: Range, q: seq<Key>)
    requires VersionRange(r) && forall k :: k in q <==> k in view && InRange(r, Encode(k))
    ensures OnlyVersions(q)
  {
    forall i | 0 <= i < |q| ensures q[i].Version? { assert q[i] in q; }
  }

  /** The live pairs of a view in a range. */
  function LiveIn(view: View, r: Range): seq<(Bytes, Value)>
    requires VersionRange(r)
  {
    OnlyVersionsIn(view, r, Versions(view, r));
    Live(view, Versions(view, r))
  }

  lemma NoVersions(view: View)
    ensures Live(view, []) == []
  {
  }

  lemma RestVersions(r: Range, k: Key)
    requires VersionRange(r) && InRange(r, Encode(k))
    ensures VersionRange(Range(Included(Encode(k)), r.end))
  {
    var rest := Range(Included(Encode(k)), r.end);
    forall j | InRange(rest, Encode(j)) ensures j.Version? { StartReached(r.start, Encode(k), Encode(j)); }
  }

  lemma LiveStep(view: View, q: seq<Key>, i: nat)
    requires OnlyVersions(q) && (forall k :: k in q ==> k in view) && i < |q|
    ensures OnlyVersions(q[i..]) && OnlyVersions(q[i + 1..]) && (forall k :: k in q[i..] ==> k in view) &&
        (forall k :: k in q[i + 1..] ==> k in view)
    ensures q[i] in view
    ensures Live(view, q[i..]) ==
              (if (i + 1 < |q| && q[i + 1].key == q[i].key) || view[q[i]].None? then []
                  else [(q[i].key, view[q[i]].value)])
              + Live(view, q[i + 1..])
  {
    var p := q[i..];
    assert p[1..] == q[i + 1..] && p[0] == q[i];
    if i + 1 < |q| { assert p[1] == q[i + 1]; }
  }

  // ---------------------------------------------------------------- the iterator

  class ScanIterator {
    const txn: TransactionState
    const bufferSize: nat
    var buffer: seq<(Bytes, Value)>
    var remainder: Option<Range>

    ghost predicate Valid()
      reads this
    {
      bufferSize > 0 && (remainder.Some? ==> VersionRange(remainder.value))
    }

    /** The pairs still to be yielded, if the view stays as it is. */
    ghost function Pending(view: View): seq<(Bytes, Value)>
      requires Valid()
      reads this
    {
      buffer + (if remainder.Some? then LiveIn(view, remainder.value) else [])
    }

    constructor (txn: TransactionState, range: Range, bufferSize: nat)
      requires VersionRange(range) && bufferSize > 0
      ensures Valid() && this.txn == txn && this.bufferSize == bufferSize
      ensures buffer == [] && remainder == Some(range)
    {
      this.txn := txn;
      this.bufferSize := bufferSize;
      buffer := [];
      remainder := Some(range);
    }

    /** Fills the buffer from the engine as it is now. */
    method FillBuffer(data: Data)
      requires Valid() && WellTyped(data)
      modifies this
      ensures Valid() && Pending(ViewOf(data, txn)) == old(Pending(ViewOf(data, txn)))
      ensures old(Pending(ViewOf(data, txn))) != [] ==> buffer != []
    {
      hide Versions, Encode, InRange, Live, ViewOf, InOrder, Compare, VersionRange;
      if |buffer| >= bufferSize || remainder.None? { return; }
      var range, view := remainder.value, ViewOf(data, txn);
      remainder := None;
      var q := Versions(view, range);
      OnlyVersionsIn(view, range, q);
      ghost var all := old(buffer) + Live(view, q);
      assert q[0..] == q;
      NoVersions(view);
      for i := 0 to |q|
        invariant remainder.None? && |buffer| < bufferSize
        invariant buffer + Live(view, q[i..]) == all
      {
        LiveStep(view, q, i);
        if i + 1 < |q| && q[i + 1].key == q[i].key { continue; }
        if view[q[i]].None? { continue; }
        buffer := buffer + [(q[i].key, view[q[i]].value)];
        if |buffer| == bufferSize {
          if i + 1 < |q| {
            RestOfRange(view, range, i + 1);
            remainder := Some(Range(Included(Encode(q[i + 1])), range.end));
            RestVersions(range, q[i + 1]);
          } else {
            assert q[i + 1..] == [];
          }
          return;
        }
      }
      assert q[|q|..] == [];
    }

    /** The next live pair, if any. */
    method Next(data: Data) returns (item: Option<(Bytes, Value)>)
      requires Valid() && WellTyped(data)
      modifies this
      ensures Valid()
      ensures var view := ViewOf(data, txn);
              if item.Some? then old(Pending(view)) == [item.value] + Pending(view)
              else old(Pending(view)) == [] && Pending(view) == []
    {
      hide LiveIn, ViewOf, VersionRange, WellTyped;
      if buffer == [] { FillBuffer(data); }
      if buffer == [] { return None; }
      item := Some(buffer[0]);
      buffer := buffer[1..];
    }
  }

  /** Calls an iterator until it ends, or as often as there are `datas`: what the engine holds
      at each call, which may be anything that looks the same to the transaction. */
  method Drain(it: ScanIterator, view: View, datas: seq<Data>) returns (out: seq<(Bytes, Value)>)
    requires it.Valid()
    requires forall j :: 0 <= j < |datas| ==> WellTyped(datas[j]) && ViewOf(datas[j], it.txn) == view
    modifies it
    ensures |out| <= |old(it.Pending(view))| && out == old(it.Pending(view))[..|out|]
    ensures |out| < |datas| ==> out == old(it.Pending(view))
  {
    hide ViewOf, LiveIn, WellTyped, VersionRange;
    out := [];
    for j := 0 to |datas|
      invariant it.Valid() && |out| == j
      invariant out + it.Pending(view) == old(it.Pending(view))
    {
      assert ViewOf(datas[j], it.txn) == view;
      var item := it.Next(datas[j]);
      if item.None? { return; }
      out := out + [item.value];
    }
  }

  // ---------------------------------------------------------------- what a scan yields

  /** u is the last version of k in the list. */
  ghost predicate IsLastIn(q: seq<Key>, k: Bytes, u: Version) {
    Version(k, u) in q && forall w: Version :: Version(k, w) in q ==> w <= u
  }

  /** Later versions in a sorted list are of the same key or a later one. */
  lemma LaterKeys(q: seq<Key>, j: nat)
    requires OnlyVersions(q) && IsSorted(q) && 0 < j < |q|
    ensures Compare(q[0].key, q[j].key) != Greater
    ensures q[1].key != q[0].key ==> Compare(q[0].key, q[j].key) == Less
    ensures q[j].key == q[0].key ==> q[0].version < q[j].version
  {
    assert CompareKeys(q[0], q[j]) == Less && CompareKeys(q[0], q[1]) == Less;
    CompareEqual(q[0].key, q[j].key);
    CompareEqual(q[0].key, q[1].key);
    if j > 1 {
      assert CompareKeys(q[1], q[j]) == Less;
      CompareTransitive(q[0].key, q[1].key, q[j].key);
    }
  }

  lemma {:induction false} LiveExact(view: View, q: seq<Key>, k: Bytes, value: Value)
    requires OnlyVersions(q) && IsSorted(q) && forall j :: j in q ==> j in view
    ensures (k, value) in Live(view, q) <==>
        exists u: Version :: IsLastIn(q, k, u) && view[Version(k, u)] == Some(value)
  {
    if q != [] {
      TailElements(q);
      OnlyTail(q);
      LiveExact(view, q[1..], k, value);
      LastInTail(q, k);
      if |q| > 1 && q[1].key == q[0].key {
      } else if k == q[0].key {
        assert IsLastIn(q, k, q[0].version) by { assert q[0] == Version(k, q[0].version); }
      }
    }
  }

  lemma OnlyTail(q: seq<Key>)
    requires OnlyVersions(q) && q != []
    ensures OnlyVersions(q[1..])
  {
    forall i | 0 <= i < |q[1..]| ensures q[1..][i].Version? { assert q[1..][i] == q[i + 1]; }
  }

  /** How the last versions of a sorted list relate to those of its tail. */
  lemma LastInTail(q: seq<Key>, k: Bytes)
    requires OnlyVersions(q) && IsSorted(q) && q != []
    requires forall j :: j in q[1..] <==> j in q && j != q[0]
    ensures (|q| > 1 && q[1].key == q[0].key) || k != q[0].key ==> forall u: Version :: IsLastIn(q, k, u) <==>
        IsLastIn(q[1..], k, u)
    ensures !(|q| > 1 && q[1].key == q[0].key) && k == q[0].key ==>
              (forall u: Version :: Version(k, u) !in q[1..]) &&
                  (forall u: Version :: IsLastIn(q, k, u) <==> u == q[0].version)
  {
    var x := q[0];
    assert x == Version(x.key, x.version);
    forall u: Version | Version(x.key, u) in q[1..] ensures x.version < u && |q| > 1 && q[1].key == x.key {
      var j :| 0 <= j < |q[1..]| && q[1..][j] == Version(x.key, u);
      assert q[j + 1] == Version(x.key, u);
      LaterKeys(q, j + 1);
      CompareEqual(x.key, x.key);
    }
    if |q| > 1 && q[1].key == x.key {
      assert q[1] == Version(x.key, q[1].version) && q[1..][0] == q[1];
    }
  }

  /** Strictly ascending keys. */
  ghost predicate Ascending(out: seq<(Bytes, Value)>) {
    forall i, j :: 0 <= i < j < |out| ==> Compare(out[i].0, out[j].0) == Less
  }

  /** No key before k. */
  ghost predicate NoneBefore(k: Bytes, out: seq<(Bytes, Value)>) {
    forall i :: 0 <= i < |out| ==> Compare(k, out[i].0) != Greater
  }

  /** Live pairs come in strictly ascending order of key, none before the first version's. */
  lemma {:induction false} LiveSorted(view: View, q: seq<Key>)
    requires OnlyVersions(q) && IsSorted(q) && forall j :: j in q ==> j in view
    ensures Ascending(Live(view, q))
    ensures q != [] ==> NoneBefore(q[0].key, Live(view, q))
  {
    if q != [] {
      TailElements(q);
      OnlyTail(q);
      LiveSorted(view, q[1..]);
      var rest := Live(view, q[1..]);
      CompareEqual(q[0].key, q[0].key);
      if |q| > 1 {
        LaterKeys(q, 1);
        CompareEqual(q[0].key, q[1].key);
        assert q[1..][0] == q[1];
        forall i | 0 <= i < |rest|
          ensures Compare(q[0].key, rest[i].0) != Greater &&
              (q[1].key != q[0].key ==> Compare(q[0].key, rest[i].0) == Less)
        {
          assert Compare(q[1].key, rest[i].0) != Greater;
          CompareTransitive(q[0].key, q[1].key, rest[i].0);
        }
      }
    }
  }

  /** A scan of the byte range of some user keys yields exactly the pairs that reading each of
      them gives. */
  lemma YieldsExactly(data: Data, t: TransactionState, r: Range, wanted: Bytes -> bool, k: Bytes, value: Value)
    requires WellTyped(data) && VersionRange(r)
    requires forall key: Key :: InRange(r, Encode(key)) <==> key.Version? && wanted(key.key)
    ensures (k, value) in LiveIn(ViewOf(data, t), r) <==> wanted(k) && Reads(data, t, k, Some(value))
  {
    var view := ViewOf(data, t);
    var q := Versions(view, r);
    OnlyVersionsIn(view, r, q);
    LiveExact(view, q, k, value);
    hide Versions, Live, Encode, InRange, IsSorted, CompareKeys;
    assert forall w: Version :: Version(k, w) in q <==> Version(k, w) in data && Visible(t, w) && wanted(k);
    assert forall u: Version :: IsLastIn(q, k, u) <==> wanted(k) && IsLastVisible(data, t, k, u);
  }

  /** Draining a scan yields, in ascending order of key, exactly the keys in range that have a
      value, with the values the transaction reads. */
  lemma ScanYields(data: Data, t: TransactionState, r: Range, k: Bytes, value: Value)
    requires WellTyped(data)
    ensures VersionRange(ScanRange(r))
    ensures (k, value) in LiveIn(ViewOf(data, t), ScanRange(r)) <==> InRange(r, k) && Reads(data, t, k, Some(value))
  {
    forall key: Key ensures InRange(ScanRange(r), Encode(key)) <==> key.Version? && InRange(r, key.key) {
      ScanRangeExact(r, key);
    }
    YieldsExactly(data, t, ScanRange(r), key => InRange(r, key), k, value);
  }

  /** The same of a scan of all keys with a prefix. */
  lemma ScanPrefixYields(data: Data, t: TransactionState, p: Bytes, k: Bytes, value: Value)
    requires WellTyped(data)
    ensures VersionRange(PrefixRange(VersionPrefix(p)))
    ensures (k, value) in LiveIn(ViewOf(data, t), PrefixRange(VersionPrefix(p))) <==>
        StartsWith(k, p) && Reads(data, t, k, Some(value))
  {
    var r := PrefixRange(VersionPrefix(p));
    forall key: Key ensures InRange(r, Encode(key)) <==> key.Version? && StartsWith(key.key, p) {
      ScanPrefixExact(p, key);
    }
    YieldsExactly(data, t, r, key => StartsWith(key, p), k, value);
  }

  lemma ScanSorted(view: View, r: Range)
    requires VersionRange(r)
    ensures Ascending(LiveIn(view, r))
  {
    OnlyVersionsIn(view, r, Versions(view, r));
    LiveSorted(view, Versions(view, r));
  }

  // ---------------------------------------------------------------- interference

  /** While it makes no writes of its own, what an open transaction sees does not change,
      whatever others begin, write, commit or roll back. */
  lemma ViewStays(r: Run, a: nat, b: nat, v: Version)
    requires ValidRun(r) && a <= b < |r.states| && v in r.states[a].open && v in r.states[b].open
    requires forall j :: a <= j < b ==> !(r.events[j].Write? && r.events[j].version == v)
    ensures WellTyped(r.states[a].data) && WellTyped(r.states[b].data)
    ensures r.states[b].open[v] == r.states[a].open[v]
    ensures ViewOf(r.states[a].data, r.states[a].open[v]) == ViewOf(r.states[b].data, r.states[a].open[v])
  {
    hide *;
    var st, s, st', s' := r.states[a], RefAt(r, a), r.states[b], RefAt(r, b);
    MatchParts(st, s);
    MatchParts(st', s');
    OpenTxn(st, s, v);
    OpenTxn(st', s', v);
    OwnWritesStay(r, a, b, v);
    forall u: Version | u in s.txns ensures Stays(s, s', u) { TxnsStay(r, a, b, u); }
    TxnsStay(r, a, b, v);
    SameOwn(st.data, s, st'.data, s', st.open[v]);
    SameVisible(st.data, s, st'.data, s', st.open[v]);
  }

  /** What a read-only transaction sees never changes. */
  lemma ReadOnlyViewStays(r: Run, a: nat, b: nat, asOf: Option<Version>)
    requires ValidRun(r) && a <= b < |r.states| && WellTyped(r.states[a].data)
    requires BeginReadOnlyState(r.states[a].data, asOf).Ok?
    ensures WellTyped(r.states[b].data)
    ensures var t := BeginReadOnlyState(r.states[a].data, asOf).value;
            ViewOf(r.states[a].data, t) == ViewOf(r.states[b].data, t)
  {
    hide *;
    var st, s, st', s' := r.states[a], RefAt(r, a), r.states[b], RefAt(r, b);
    MatchParts(st, s);
    MatchParts(st', s');
    forall u: Version | u in s.txns ensures Stays(s, s', u) { TxnsStay(r, a, b, u); }
    var t := BeginReadOnlyState(st.data, asOf).value;
    FrozenTxns(st.data, s, st'.data, s', asOf, t);
    SameVisible(st.data, s, st'.data, s', t);
  }

  lemma FrozenTxns(d: Data, s: Reference, d': Data, s': Reference, asOf: Option<Version>, t: TransactionState)
    requires Stores(d, s) && Stores(d', s') && ActiveSets(d, s) && BeginReadOnlyState(d, asOf) == Ok(t)
    requires forall u: Version :: u in s.txns ==> Stays(s, s', u)
    ensures forall u: Version :: Visible(t, u) ==> SameTxn(s, s', u)
  {
    forall u: Version | Visible(t, u) ensures SameTxn(s, s', u) {
      ActiveSetHas(d, u);
      if u in s.txns {
        assert Stays(s, s', u);
        if asOf.Some? && asOf.value in s.txns { assert OpenKnown(d, s, u, asOf.value); }
      }
    }
  }

  /** u wrote the same, and is rolled back in both or in neither. */
  ghost predicate SameTxn(s: Reference, s': Reference, u: Version) {
    && (u in s.txns <==> u in s'.txns)
    && (u in s.txns ==>
        s'.txns[u].writes == s.txns[u].writes && (s'.txns[u].status == RolledBack <==> s.txns[u].status == RolledBack))
  }

  lemma OpenTxn(st: State, s: Reference, v: Version)
    requires WellTyped(st.data) && Handles(st, s) && v in st.open
    ensures v in s.txns && IsOpen(s, v) && st.open[v] == TransactionState(v, false, A(st.data, v))
  {
  }

  lemma {:induction false} OwnWritesStay(r: Run, a: nat, b: nat, v: Version)
    requires ValidRun(r) && a <= b < |r.states| && v in RefAt(r, a).txns
    requires forall j :: a <= j < b ==> !(r.events[j].Write? && r.events[j].version == v)
    ensures v in RefAt(r, b).txns && RefAt(r, b).txns[v].writes == RefAt(r, a).txns[v].writes
    decreases b - a
  {
    hide *;
    if a < b {
      EventsOf(r);
      OwnWritesStay(r, a, b - 1, v);
      RefNext(r, b - 1);
      SameWrites(r.states[b - 1], RefAt(r, b - 1), r.events[b - 1], v);
    }
  }

  lemma SameWrites(st: State, s: Reference, ev: Event, v: Version)
    requires Matches(st, s) && RefEnabled(s, ev) && v in s.txns && !(ev.Write? && ev.version == v)
    ensures v in RefStep(s, ev).txns && RefStep(s, ev).txns[v].writes == s.txns[v].writes
  {
    MatchParts(st, s);
    assert s.next !in s.txns;
    hide Matches, Stores, Handles, ActiveSets, NoOverlap, Seen, Snapshots, CommittedState, WellTyped;
  }

  lemma SameOwn(d: Data, s: Reference, d': Data, s': Reference, t: TransactionState)
    requires Stores(d, s) && Stores(d', s') && ActiveSets(d, s) && !t.readOnly && t.version in s.txns
    requires t.active == A(d, t.version)
    requires forall u: Version :: u in s.txns ==> Stays(s, s', u)
    requires IsOpen(s, t.version) && IsOpen(s', t.version) && s'.txns[t.version].writes == s.txns[t.version].writes
    ensures forall u: Version :: Visible(t, u) ==> SameTxn(s, s', u)
  {
    forall u: Version | Visible(t, u) ensures SameTxn(s, s', u) {
      assert OpenKnown(d, s, u, t.version);
      assert u in s.txns ==> Stays(s, s', u);
    }
  }

  lemma SameVisible(d: Data, s: Reference, d': Data, s': Reference, t: TransactionState)
    requires Stores(d, s) && Stores(d', s') && forall u: Version :: Visible(t, u) ==> SameTxn(s, s', u)
    ensures ViewOf(d, t) == ViewOf(d', t)
  {
    var a, b := ViewOf(d, t), ViewOf(d', t);
    hide Stores, SameTxn;
    forall x ensures (x in a <==> x in b) && (x in a ==> a[x] == b[x]) {
      if x.Version? && Visible(t, x.version) {
        assert x == Version(x.key, x.version);
        SameVersion(d, s, d', s', x.key, x.version);
      }
    }
  }

  lemma SameVersion(d: Data, s: Reference, d': Data, s': Reference, k: Bytes, u: Version)
    requires Stores(d, s) && Stores(d', s') && SameTxn(s, s', u)
    ensures Version(k, u) in d <==> Version(k, u) in d'
    ensures Version(k, u) in d ==> d[Version(k, u)] == d'[Version(k, u)]
  {
    assert Version(k, u) in d <==> Wrote(s, u, k);
    assert Version(k, u) in d' <==> Wrote(s', u, k);
  }

  // ---------------------------------------------------------------- scans in runs

  /** What a scan of some state returned: pairs of the state in the range, in ascending order of
      key, and all of them if it was called to its end. */
  ghost predicate Scanned(out: seq<(Bytes, Value)>, ended: bool, range: Range, m: map<Bytes, Value>) {
    && Ascending(out)
    && (forall k, value :: (k, value) in out ==> InRange(range, k) && Lookup(m, k) == Some(value))
    && (ended ==> forall k, value :: InRange(range, k) && Lookup(m, k) == Some(value) ==> (k, value) in out)
  }

  /** The transaction reads the state. */
  ghost predicate ReadsState(data: Data, t: TransactionState, m: map<Bytes, Value>)
    requires WellTyped(data)
  {
    forall k, value :: Reads(data, t, k, value) <==> value == Lookup(m, k)
  }

  lemma ScanVersions(range: Range)
    ensures VersionRange(ScanRange(range))
  {
    forall key | InRange(ScanRange(range), Encode(key)) ensures key.Version? { ScanRangeExact(range, key); }
  }

  lemma ScannedPart(data: Data, t: TransactionState, range: Range, m: map<Bytes, Value>, out: seq<(Bytes, Value)>,
      ended: bool)
    requires WellTyped(data) && VersionRange(ScanRange(range)) && ReadsState(data, t, m)
    requires var live := LiveIn(ViewOf(data, t), ScanRange(range));
             |out| <= |live| && out == live[..|out|] && (ended ==> out == live)
    ensures Scanned(out, ended, range, m)
  {
    var live := LiveIn(ViewOf(data, t), ScanRange(range));
    ScanSorted(ViewOf(data, t), ScanRange(range));
    hide LiveIn, ViewOf, ScanRange, VersionRange, InRange, Reads, WellTyped, Compare;
    forall k, value ensures (k, value) in live <==> InRange(range, k) && Lookup(m, k) == Some(value) {
      ScanYields(data, t, range, k, value);
      assert Reads(data, t, k, Some(value)) <==> Some(value) == Lookup(m, k);
    }
  }

  ghost predicate LooksSame(datas: seq<Data>, t: TransactionState) {
    && datas != [] && WellTyped(datas[0])
    && forall j :: 0 <= j < |datas| ==> WellTyped(datas[j]) && ViewOf(datas[j], t) == ViewOf(datas[0], t)
  }

  /** A scan that is called at some moments, at each of which the engine looks the same to the
      transaction. */
  method ScanWhile(t: TransactionState, range: Range, bufferSize: nat, datas: seq<Data>, ghost m: map<Bytes, Value>)
    returns (out: seq<(Bytes, Value)>)
    requires bufferSize > 0 && LooksSame(datas, t) && ReadsState(datas[0], t, m)
    ensures Scanned(out, |out| < |datas|, range, m)
  {
    ScanVersions(range);
    hide ViewOf, LiveIn, WellTyped, VersionRange, ScanRange, ReadsState, Scanned;
    var view := ViewOf(datas[0], t);
    var it := new ScanIterator(t, ScanRange(range), bufferSize);
    assert it.Pending(view) == LiveIn(view, ScanRange(range));
    out := Drain(it, view, datas);
    ScannedPart(datas[0], t, range, m, out, |out| < |datas|);
  }

  /** Moments of a run, the first of them the earliest. */
  ghost predicate Moments(r: Run, moments: seq<nat>) {
    ValidRun(r) && moments != [] && forall i :: 0 <= i < |moments| ==> moments[0] <= moments[i] < |r.states|
  }

  ghost predicate Undisturbed(r: Run, a: nat, b: nat, v: Version)
    requires ValidRun(r) && a <= b < |r.states|
  {
    && v in r.states[a].open && v in r.states[b].open
    && forall j :: a <= j < b ==> !(r.events[j].Write? && r.events[j].version == v)
  }

  function DatasAt(r: Run, moments: seq<nat>): (datas: seq<Data>)
    requires forall i :: 0 <= i < |moments| ==> moments[i] < |r.states|
    ensures |datas| == |moments|
  {
    seq(|moments|, i requires 0 <= i < |moments| => r.states[moments[i]].data)
  }

  /** A scan in a run by a transaction that does not write meanwhile. Whatever others begin,
      write, commit or roll back between its calls, it returns the state that was committed
      when the transaction began, overlaid with its own writes. */
  method ScanDuring(r: Run, moments: seq<nat>, v: Version, range: Range, bufferSize: nat)
    returns (out: seq<(Bytes, Value)>)
    requires Moments(r, moments) && bufferSize > 0
    requires forall i :: 0 <= i < |moments| ==> Undisturbed(r, moments[0], moments[i], v)
    ensures v in RefAt(r, moments[0]).txns
    ensures var x := RefAt(r, moments[0]).txns[v];
            Scanned(out, |out| < |moments|, range, Overlay(x.snapshot, x.writes))
  {
    var a := moments[0];
    var t, datas := r.states[a].open[v], DatasAt(r, moments);
    StateRead(r, a, v);
    SameAtMoments(r, moments, v);
    hide *;
    out := ScanWhile(t, range, bufferSize, datas, Overlay(RefAt(r, a).txns[v].snapshot, RefAt(r, a).txns[v].writes));
  }

  lemma StateRead(r: Run, a: nat, v: Version)
    requires ValidRun(r) && a < |r.states| && v in r.states[a].open
    ensures WellTyped(r.states[a].data) && v in RefAt(r, a).txns
    ensures var x := RefAt(r, a).txns[v];
            ReadsState(r.states[a].data, r.states[a].open[v], Overlay(x.snapshot, x.writes))
  {
    MatchParts(r.states[a], RefAt(r, a));
    OpenTxn(r.states[a], RefAt(r, a), v);
    hide RefAt, ValidRun, Overlay, Reads;
    var d, t, x := r.states[a].data, r.states[a].open[v], RefAt(r, a).txns[v];
    forall k, value ensures Reads(d, t, k, value) <==> value == Lookup(Overlay(x.snapshot, x.writes), k) {
      SnapshotIsolation(r, a, v, k, value);
    }
  }

  lemma SameAtMoments(r: Run, moments: seq<nat>, v: Version)
    requires Moments(r, moments)
    requires forall i :: 0 <= i < |moments| ==> Undisturbed(r, moments[0], moments[i], v)
    ensures v in r.states[moments[0]].open && LooksSame(DatasAt(r, moments), r.states[moments[0]].open[v])
  {
    var a, datas := moments[0], DatasAt(r, moments);
    assert Undisturbed(r, a, a, v);
    hide ValidRun, ViewOf, WellTyped;
    ViewStays(r, a, a, v);
    var t := r.states[a].open[v];
    forall j | 0 <= j < |datas| ensures WellTyped(datas[j]) && ViewOf(datas[j], t) == ViewOf(datas[0], t) {
      assert Undisturbed(r, a, moments[j], v);
      ViewStays(r, a, moments[j], v);
    }
  }

  /** The state a read-only transaction sees: what was committed when it began, or when the
      version began that it is as of. */
  ghost function FrozenState(s: Reference, asOf: Option<Version>): map<Bytes, Value>
    requires asOf.Some? ==> asOf.value in s.txns
  {
    if asOf.Some? then s.txns[asOf.value].snapshot else s.committed
  }

  /** The same of a read-only transaction. */
  method ReadOnlyScanDuring(r: Run, moments: seq<nat>, asOf: Option<Version>, range: Range, bufferSize: nat)
    returns (out: seq<(Bytes, Value)>)
    requires Moments(r, moments) && bufferSize > 0
    requires asOf.Some? ==> asOf.value in RefAt(r, moments[0]).txns
    ensures Scanned(out, |out| < |moments|, range, FrozenState(RefAt(r, moments[0]), asOf))
  {
    var a, datas := moments[0], DatasAt(r, moments);
    FrozenStateRead(r, a, asOf);
    FrozenAtMoments(r, moments, asOf);
    var t := BeginReadOnlyState(r.states[a].data, asOf).value;
    hide *;
    out := ScanWhile(t, range, bufferSize, datas, FrozenState(RefAt(r, a), asOf));
  }

  lemma FrozenStateRead(r: Run, a: nat, asOf: Option<Version>)
    requires ValidRun(r) && a < |r.states| && (asOf.Some? ==> asOf.value in RefAt(r, a).txns)
    ensures WellTyped(r.states[a].data) && BeginReadOnlyState(r.states[a].data, asOf).Ok?
    ensures var t := BeginReadOnlyState(r.states[a].data, asOf).value;
            ReadsState(r.states[a].data, t, FrozenState(RefAt(r, a), asOf))
  {
    hide RefAt, ValidRun, Reads, WellTyped, BeginReadOnlyState;
    var d, m := r.states[a].data, FrozenState(RefAt(r, a), asOf);
    match asOf {
      case None =>
        ReadOnlySnapshot(r, a, a, [], None);
        var t := BeginReadOnlyState(d, None).value;
        forall k, value ensures Reads(d, t, k, value) <==> value == Lookup(m, k) {
          ReadOnlySnapshot(r, a, a, k, value);
        }
      case Some(v) =>
        TimeTravel(r, a, a, v, [], None);
        var t := BeginReadOnlyState(d, Some(v)).value;
        forall k, value ensures Reads(d, t, k, value) <==> value == Lookup(m, k) {
          TimeTravel(r, a, a, v, k, value);
        }
    }
  }

  lemma FrozenAtMoments(r: Run, moments: seq<nat>, asOf: Option<Version>)
    requires Moments(r, moments) && WellTyped(r.states[moments[0]].data)
    requires BeginReadOnlyState(r.states[moments[0]].data, asOf).Ok?
    ensures LooksSame(DatasAt(r, moments), BeginReadOnlyState(r.states[moments[0]].data, asOf).value)
  {
    var a, datas := moments[0], DatasAt(r, moments);
    var t := BeginReadOnlyState(r.states[a].data, asOf).value;
    hide ValidRun, ViewOf, WellTyped, BeginReadOnlyState;
    forall j | 0 <= j < |datas| ensures WellTyped(datas[j]) && ViewOf(datas[j], t) == ViewOf(datas[0], t) {
      ReadOnlyViewStays(r, a, moments[j], asOf);
    }
  }
}
