/** MVCC transactions over a key/value engine (src/storage/mvcc.rs). The engine is kept by
    decoded key: `MvccKey.DecodeExact` and `MvccKey.KeyOrder` make that the same as keeping
    it by encoded bytes in byte order. */
module Mvcc {
  import opened Basics
  import opened Keycode
  import opened MvccKey

  type Value = Bytes

  /** What is stored under a key; `Written(None)` is a tombstone. */
  datatype Stored =
    | Next(version: Version)
    | Snapshot(active: set<Version>)
    | Written(value: Option<Value>)
    | Empty

  type Data = map<Key, Stored>

  datatype TransactionState = TransactionState(version: Version, readOnly: bool, active: set<Version>)

  datatype Error = Serialization | ReadOnly | NoSuchVersion | NotActive

  datatype Result<T> = Ok(value: T) | Err(error: Error)

  // ---------------------------------------------------------------- engine

  ghost predicate IsSorted(q: seq<Key>) {
    forall i, j :: 0 <= i < j < |q| ==> CompareKeys(q[i], q[j]) == Less
  }

  /** k comes before everything else in s. */
  predicate IsFirst(s: set<Key>, k: Key) {
    k in s && forall j :: j in s ==> CompareKeys(k, j) != Greater
  }

  lemma CompareKeysTransitive(a: Key, b: Key, c: Key)
    requires CompareKeys(a, b) != Greater && CompareKeys(b, c) != Greater
    ensures CompareKeys(a, c) != Greater
    ensures CompareKeys(a, b) == Less || CompareKeys(b, c) == Less ==> CompareKeys(a, c) == Less
  {
    KeyOrder(a, b);
    KeyOrder(b, c);
    KeyOrder(a, c);
    CompareTransitive(Encode(a), Encode(b), Encode(c));
  }

  lemma {:induction false} FirstExists(s: set<Key>)
    requires s != {}
    ensures exists k :: IsFirst(s, k)
  {
    var k :| k in s;
    var rest := s - {k};
    CompareKeysEqual(k, k);
    if rest == {} {
      assert s == {k};
      assert IsFirst(s, k);
    } else {
      FirstExists(rest);
      var m :| IsFirst(rest, m);
      CompareKeysFlip(k, m);
      var f := if CompareKeys(k, m) == Less then k else m;
      forall j | j in s ensures CompareKeys(f, j) != Greater {
        if j != k && f == k { CompareKeysTransitive(k, m, j); }
      }
      assert IsFirst(s, f);
    }
  }

  lemma FirstUnique(s: set<Key>, a: Key, b: Key)
    requires IsFirst(s, a) && IsFirst(s, b)
    ensures a == b
  {
    CompareKeysFlip(a, b);
    CompareKeysEqual(a, b);
  }

  lemma FirstThenRest(s: set<Key>, k: Key, rest: seq<Key>)
    requires IsFirst(s, k) && IsSorted(rest) && forall j :: j in rest <==> j in s - {k}
    ensures IsSorted([k] + rest) && forall j :: j in [k] + rest <==> j in s
  {
    forall j | 0 <= j < |rest| ensures CompareKeys(k, rest[j]) == Less {
      assert rest[j] in s - {k};
      CompareKeysEqual(k, rest[j]);
    }
  }

  /** The keys of a set in order. */
  function InOrder(s: set<Key>): (q: seq<Key>)
    ensures forall k :: k in q <==> k in s
    ensures IsSorted(q)
    decreases |s|
  {
    if s == {} then []
    else
      FirstExists(s);
      assert forall a, b :: IsFirst(s, a) && IsFirst(s, b) ==> a == b by {
        forall a, b | IsFirst(s, a) && IsFirst(s, b) ensures a == b { FirstUnique(s, a, b); }
      }
      var k :| IsFirst(s, k);
      FirstThenRest(s, k, InOrder(s - {k}));
      [k] + InOrder(s - {k})
  }

  /** The keys of the engine in a byte range, in order. */
  function Scan(data: Data, r: Range): (q: seq<Key>)
    ensures forall k :: k in q <==> k in data && InRange(r, Encode(k))
    ensures IsSorted(q)
  {
    InOrder(set k | k in data && InRange(r, Encode(k)))
  }

  /** The versions of a user key from one to another, in ascending order. */
  ghost predicate IsVersionScan(data: Data, key: Bytes, lo: Version, hi: Version, q: seq<Key>) {
    && (forall k :: k in q <==> k in data && k.Version? && k.key == key && lo <= k.version <= hi)
    && (forall i :: 0 <= i < |q| ==> q[i] in data && q[i].Version? && q[i].key == key && lo <= q[i].version <= hi)
    && (forall i, j :: 0 <= i < j < |q| ==> q[i].version < q[j].version)
  }

  function ScanVersions(data: Data, key: Bytes, lo: Version, hi: Version): (q: seq<Key>)
    ensures IsVersionScan(data, key, lo, hi, q)
  {
    var r := Range(Included(Encode(Version(key, lo))), Included(Encode(Version(key, hi))));
    var q := Scan(data, r);
    VersionScan(data, key, lo, hi, q);
    q
  }

  lemma VersionScan(data: Data, key: Bytes, lo: Version, hi: Version, q: seq<Key>)
    requires var r := Range(Included(Encode(Version(key, lo))), Included(Encode(Version(key, hi))));
             forall k :: k in q <==> k in data && InRange(r, Encode(k))
    requires IsSorted(q)
    ensures IsVersionScan(data, key, lo, hi, q)
  {
    hide Encode, InRange;
    forall k ensures k in q <==> k in data && k.Version? && k.key == key && lo <= k.version <= hi {
      VersionRangeExact(key, lo, hi, k);
    }
    assert forall i :: 0 <= i < |q| ==> q[i] in q;
    CompareEqual(key, key);
  }

  // ---------------------------------------------------------------- what the engine holds

  /** Every key holds a value of its kind. */
  ghost predicate WellTyped(data: Data) {
    forall k :: k in data ==>
      match k
      case NextVersion => data[k].Next?
      case TxnActive(_) => data[k].Empty?
      case TxnActiveSnapshot(_) => data[k].Snapshot?
      case TxnWrite(_, _) => data[k].Empty?
      case Version(_, _) => data[k].Written?
      case Unversioned(_) => true
  }

  function NextOf(data: Data): Version
    requires WellTyped(data)
  {
    if NextVersion in data then data[NextVersion].version else 1
  }

  function ActiveSet(data: Data): set<Version> {
    set k | k in data && k.TxnActive? :: k.version
  }

  lemma ActiveSetHas(data: Data, v: Version)
    ensures v in ActiveSet(data) <==> TxnActive(v) in data
  {
    if TxnActive(v) in data { assert TxnActive(v).version in ActiveSet(data); }
  }

  /** Which versions a transaction sees. */
  predicate Visible(t: TransactionState, version: Version) {
    if version in t.active then false
    else if t.readOnly then version < t.version
    else version <= t.version
  }

  // ---------------------------------------------------------------- the operations on values

  function BeginData(data: Data): Data
    requires WellTyped(data) && NextOf(data) < MAX_VERSION
  {
    var v, active := NextOf(data), ActiveSet(data);
    var d := data[NextVersion := Next(v + 1)];
    var e := if active != {} then d[TxnActiveSnapshot(v) := Snapshot(active)] else d;
    e[TxnActive(v) := Empty]
  }

  function BeginState(data: Data): TransactionState
    requires WellTyped(data)
  {
    TransactionState(NextOf(data), false, ActiveSet(data))
  }

  /** The snapshot stored for a version. */
  function StoredSnapshot(data: Data, v: Version): set<Version>
    requires WellTyped(data)
  {
    if TxnActiveSnapshot(v) in data then data[TxnActiveSnapshot(v)].active else {}
  }

  function BeginReadOnlyState(data: Data, asOf: Option<Version>): Result<TransactionState>
    requires WellTyped(data)
  {
    match asOf
    case None => Ok(TransactionState(NextOf(data), true, ActiveSet(data)))
    case Some(v) =>
      if v >= NextOf(data) then Err(NoSuchVersion)
      else Ok(TransactionState(v, true, StoredSnapshot(data, v)))
  }

  /** The last of the versions of a key from `lo` on. */
  ghost predicate IsLatest(data: Data, key: Bytes, lo: Version, u: Version) {
    && lo <= u && Version(key, u) in data
    && forall w: Version :: Version(key, w) in data && lo <= w ==> w <= u
  }

  /** Where the conflict check starts: at the first transaction active when this one began,
      or after this one if there was none. */
  ghost predicate IsCheckStart(t: TransactionState, lo: Version) {
    if t.active == {} then lo == t.version + 1
    else lo in t.active && forall u :: u in t.active ==> lo <= u
  }

  /** The write conflicts: the last version from the start of the check is invisible. */
  ghost predicate Conflicts(data: Data, t: TransactionState, key: Bytes) {
    exists lo: Version, u: Version :: IsCheckStart(t, lo) && IsLatest(data, key, lo, u) && !Visible(t, u)
  }

  function WriteData(data: Data, v: Version, key: Bytes, value: Option<Value>): Data {
    data[TxnWrite(v, key) := Empty][Version(key, v) := Written(value)]
  }

  /** The last visible version of a key. */
  ghost predicate IsLastVisible(data: Data, t: TransactionState, key: Bytes, u: Version) {
    && Version(key, u) in data && Visible(t, u)
    && forall w: Version :: Version(key, w) in data && Visible(t, w) ==> w <= u
  }

  /** The value a transaction reads. */
  ghost predicate Reads(data: Data, t: TransactionState, key: Bytes, value: Option<Value>)
    requires WellTyped(data)
  {
    || (exists u :: IsLastVisible(data, t, key, u) && value == data[Version(key, u)].value)
    || (value == None && forall u: Version :: Version(key, u) in data ==> !Visible(t, u))
  }

  function CommitData(data: Data, v: Version): Data {
    map k | k in data && !(k.TxnWrite? && k.version == v) && k != TxnActive(v) :: data[k]
  }

  function RollbackData(data: Data, v: Version): Data {
    map k | k in data
            && !(k.TxnWrite? && k.version == v)
            && !(k.Version? && k.version == v && TxnWrite(v, k.key) in data)
            && k != TxnActive(v)
      :: data[k]
  }

  // ---------------------------------------------------------------- the engine in place

  class Store {
    var data: Data

    ghost predicate Valid()
      reads this
    {
      WellTyped(data)
    }

    constructor ()
      ensures Valid() && data == map[]
    {
      data := map[];
    }

    method ScanActive() returns (active: set<Version>)
      ensures active == ActiveSet(data)
    {
      var keys := Scan(data, PrefixRange([1]));
      ActiveScan(data, keys);
      hide Scan, PrefixRange, InRange, Encode, IsSorted, VersionsOf;
      active := {};
      NoVersionsOf();
      for i := 0 to |keys|
        invariant active == VersionsOf(keys[..i])
      {
        MoreVersions(keys, i);
        active := active + {keys[i].version};
      }
      assert keys[..|keys|] == keys;
    }

    /** Begins a read-write transaction. */
    method Begin() returns (t: TransactionState)
      requires Valid() && NextOf(data) < MAX_VERSION
      modifies this
      ensures Valid() && data == BeginData(old(data)) && t == BeginState(old(data))
    {
      var version: Version := 1;
      if NextVersion in data { version := data[NextVersion].version; }
      var before := data;
      data := data[NextVersion := Next(version + 1)];
      var active := ScanActive();
      assert active == ActiveSet(before) by {
        forall v ensures v in ActiveSet(data) <==> v in ActiveSet(before) {
          ActiveSetHas(data, v);
          ActiveSetHas(before, v);
        }
      }
      if active != {} { data := data[TxnActiveSnapshot(version) := Snapshot(active)]; }
      data := data[TxnActive(version) := Empty];
      t := TransactionState(version, false, active);
    }

    method BeginReadOnly(asOf: Option<Version>) returns (r: Result<TransactionState>)
      requires Valid()
      ensures r == BeginReadOnlyState(data, asOf)
    {
      var version: Version := 1;
      if NextVersion in data { version := data[NextVersion].version; }
      var active: set<Version> := {};
      if asOf.Some? {
        if asOf.value >= version { return Err(NoSuchVersion); }
        version := asOf.value;
        if TxnActiveSnapshot(version) in data { active := data[TxnActiveSnapshot(version)].active; }
      } else {
        active := ScanActive();
      }
      return Ok(TransactionState(version, true, active));
    }

    /** A read-write transaction can be resumed while it is active, a read-only one always. */
    method Resume(s: TransactionState) returns (r: Result<TransactionState>)
      ensures r == if !s.readOnly && s.version !in ActiveSet(data) then Err(NotActive) else Ok(s)
    {
      ActiveSetHas(data, s.version);
      if !s.readOnly && TxnActive(s.version) !in data { return Err(NotActive); }
      return Ok(s);
    }

    /** Writes a value or a tombstone, unless another transaction's write is in the way. */
    method Write(t: TransactionState, key: Bytes, value: Option<Value>) returns (r: Result<()>)
      requires Valid() && t.version < MAX_VERSION
      modifies this
      ensures Valid()
      ensures t.readOnly ==> r == Err(ReadOnly) && data == old(data)
      ensures !t.readOnly && Conflicts(old(data), t, key) ==> r == Err(Serialization) && data == old(data)
      ensures !t.readOnly && !Conflicts(old(data), t, key) ==>
          r == Ok(()) && data == WriteData(old(data), t.version, key, value)
    {
      if t.readOnly { return Err(ReadOnly); }
      var conflict := FindConflict(t, key);
      hide Conflicts;
      if conflict { return Err(Serialization); }
      data := data[TxnWrite(t.version, key) := Empty];
      data := data[Version(key, t.version) := Written(value)];
      return Ok(());
    }

    /** Whether the last version from the first active transaction on is invisible. */
    method FindConflict(t: TransactionState, key: Bytes) returns (conflict: bool)
      requires Valid() && t.version < MAX_VERSION
      ensures conflict == Conflicts(data, t, key)
    {
      var lo: Version := t.version + 1;
      if t.active != {} { lo := First(t.active); }
      var keys := ScanVersions(data, key, lo, MAX_VERSION);
      ScanHolds(data, key, lo, MAX_VERSION, keys);
      hide ScanVersions, IsVersionScan, Conflicts, WellTyped;
      ConflictsExactly(data, t, key, lo, keys);
      return keys != [] && !Visible(t, keys[|keys| - 1].version);
    }

    /** The value of the last visible version. */
    method Get(t: TransactionState, key: Bytes) returns (value: Option<Value>)
      requires Valid()
      ensures Reads(data, t, key, value)
    {
      var keys := ScanVersions(data, key, 0, t.version);
      ScanHolds(data, key, 0, t.version, keys);
      hide ScanVersions, IsVersionScan, Reads, Visible;
      var i := FindVisible(t, keys);
      if i < 0 {
        NoneVisible(data, t, key, keys);
        return None;
      }
      LastVisible(data, t, key, keys, i);
      return data[keys[i]].value;
    }

    /** Removes the transaction's write records and its active record. */
    method Commit(t: TransactionState)
      requires Valid()
      modifies this
      ensures Valid()
      ensures data == if t.readOnly then old(data) else CommitData(old(data), t.version)
    {
      if t.readOnly { return; }
      var keys := WriteRecords(t.version);
      for i := 0 to |keys|
        invariant data == old(data) - Set(keys[..i])
      {
        data := data - {keys[i]};
        assert Set(keys[..i + 1]) == Set(keys[..i]) + {keys[i]};
      }
      data := data - {TxnActive(t.version)};
      assert keys[..|keys|] == keys;
    }

    /** Removes the transaction's versions, its write records and its active record. */
    method Rollback(t: TransactionState)
      requires Valid()
      modifies this
      ensures Valid()
      ensures data == if t.readOnly then old(data) else RollbackData(old(data), t.version)
    {
      if t.readOnly { return; }
      var keys := WriteRecords(t.version);
      var rollback: seq<Key> := [];
      for i := 0 to |keys|
        invariant forall k :: k in rollback <==>
            exists j :: 0 <= j < i && (k == keys[j] || k == Version(keys[j].key, t.version))
      {
        rollback := rollback + [Version(keys[i].key, t.version), keys[i]];
      }
      for i := 0 to |rollback|
        invariant data == old(data) - Set(rollback[..i])
      {
        data := data - {rollback[i]};
        assert Set(rollback[..i + 1]) == Set(rollback[..i]) + {rollback[i]};
      }
      data := data - {TxnActive(t.version)};
      assert rollback[..|rollback|] == rollback;
      RollbackKeys(old(data), t.version, keys, rollback);
    }

    /** The records of what the transaction wrote. */
    method WriteRecords(v: Version) returns (keys: seq<Key>)
      ensures forall k :: k in keys <==> k in data && k.TxnWrite? && k.version == v
      ensures forall i :: 0 <= i < |keys| ==> keys[i].TxnWrite? && keys[i].version == v
    {
      keys := Scan(data, PrefixRange([3] + VersionKey(v)));
      forall k ensures k in keys <==> k in data && k.TxnWrite? && k.version == v { RecordPrefixExact(k, v); }
      assert forall i :: 0 <= i < |keys| ==> keys[i] in keys;
    }
  }

  /** The last visible version in a list, from the end. */
  method FindVisible(t: TransactionState, keys: seq<Key>) returns (i: int)
    requires forall j :: 0 <= j < |keys| ==> keys[j].Version?
    ensures -1 <= i < |keys| && (i >= 0 ==> Visible(t, keys[i].version))
    ensures forall j :: i < j < |keys| ==> !Visible(t, keys[j].version)
  {
    i := |keys| - 1;
    while i >= 0 && !Visible(t, keys[i].version)
      invariant -1 <= i < |keys|
      invariant forall j :: i < j < |keys| ==> !Visible(t, keys[j].version)
    {
      i := i - 1;
    }
  }

  ghost function VersionsOf(keys: seq<Key>): set<Version> {
    set k | k in keys && k.TxnActive? :: k.version
  }

  lemma NoVersionsOf()
    ensures VersionsOf([]) == {}
  {
  }

  lemma MoreVersions(keys: seq<Key>, i: nat)
    requires i < |keys| && keys[i].TxnActive?
    ensures VersionsOf(keys[..i + 1]) == VersionsOf(keys[..i]) + {keys[i].version}
  {
    assert keys[..i + 1] == keys[..i] + [keys[i]];
    assert keys[i].version in VersionsOf(keys[..i + 1]);
  }

  /** The scan of active records finds exactly the active transactions. */
  lemma ActiveScan(data: Data, keys: seq<Key>)
    requires forall k :: k in keys <==> k in data && InRange(PrefixRange([1]), Encode(k))
    ensures forall i :: 0 <= i < |keys| ==> keys[i].TxnActive?
    ensures VersionsOf(keys) == ActiveSet(data)
  {
    forall k ensures k in keys <==> k in data && k.TxnActive? { RecordPrefixExact(k, 0); }
    assert forall i :: 0 <= i < |keys| ==> keys[i] in keys;
    hide InRange, PrefixRange, Encode;
    forall v ensures v in VersionsOf(keys) <==> v in ActiveSet(data) {
      ActiveSetHas(data, v);
      if v in ActiveSet(data) { assert TxnActive(v) in keys && TxnActive(v).version in VersionsOf(keys); }
    }
  }

  function Set(q: seq<Key>): set<Key> {
    set k | k in q
  }

  lemma RollbackKeys(data: Data, v: Version, keys: seq<Key>, rollback: seq<Key>)
    requires forall k :: k in keys <==> k in data && k.TxnWrite? && k.version == v
    requires forall i :: 0 <= i < |keys| ==> keys[i].TxnWrite? && keys[i].version == v
    requires forall k :: k in rollback <==>
        exists j :: 0 <= j < |keys| && (k == keys[j] || k == Version(keys[j].key, v))
    ensures data - Set(rollback) - {TxnActive(v)} == RollbackData(data, v)
  {
    forall k | k in data
      ensures k in rollback <==>
          (k.TxnWrite? && k.version == v) || (k.Version? && k.version == v && TxnWrite(v, k.key) in data)
    {
      if k.TxnWrite? && k.version == v { assert k in keys; }
      if k.Version? && k.version == v && TxnWrite(v, k.key) in data { assert TxnWrite(v, k.key) in keys; }
      if k in rollback {
        var j :| 0 <= j < |keys| && (k == keys[j] || k == Version(keys[j].key, v));
        assert keys[j] in keys;
      }
    }
  }

  /** The least element of a set of versions. */
  function First(s: set<Version>): (v: Version)
    requires s != {}
    ensures v in s && forall u :: u in s ==> v <= u
  {
    assert exists v :: v in s && forall u :: u in s ==> v <= u by {
      LeastExists(s);
      var v :| IsLeast(s, v);
    }
    var v :| v in s && forall u :: u in s ==> v <= u;
    v
  }

  ghost predicate IsLeast(s: set<Version>, v: Version) {
    v in s && forall u :: u in s ==> v <= u
  }

  lemma {:induction false} LeastExists(s: set<Version>)
    requires s != {}
    ensures exists v :: IsLeast(s, v)
  {
    var v :| v in s;
    if s == {v} {
      assert IsLeast(s, v);
    } else {
      LeastExists(s - {v});
      var w :| IsLeast(s - {v}, w);
      assert forall u :: u in s ==> u == v || u in s - {v};
      assert IsLeast(s, if v <= w then v else w);
    }
  }

  /** The check finds a conflict exactly if the last version it scans is invisible. */
  lemma ConflictsExactly(data: Data, t: TransactionState, key: Bytes, lo: Version, keys: seq<Key>)
    requires IsCheckStart(t, lo) && IsVersionScan(data, key, lo, MAX_VERSION, keys)
    ensures Conflicts(data, t, key) <==> keys != [] && !Visible(t, keys[|keys| - 1].version)
  {
    if keys != [] {
      var last := keys[|keys| - 1].version;
      assert keys[|keys| - 1] == Version(key, last);
      LatestIsLast(data, key, lo, last, keys);
      if !Visible(t, last) { assert IsCheckStart(t, lo) && IsLatest(data, key, lo, last) && !Visible(t, last); }
    }
    if Conflicts(data, t, key) {
      var l: Version, u: Version :| IsCheckStart(t, l) && IsLatest(data, key, l, u) && !Visible(t, u);
      assert l == lo;
      assert Version(key, u) in keys;
      var j :| 0 <= j < |keys| && keys[j] == Version(key, u);
      assert IsLatest(data, key, lo, keys[|keys| - 1].version);
    }
  }

  lemma LatestIsLast(data: Data, key: Bytes, lo: Version, last: Version, keys: seq<Key>)
    requires keys != [] && IsVersionScan(data, key, lo, MAX_VERSION, keys) && keys[|keys| - 1] == Version(key, last)
    ensures IsLatest(data, key, lo, last)
  {
    forall w: Version | Version(key, w) in data && lo <= w ensures w <= last {
      assert Version(key, w) in keys;
      var j :| 0 <= j < |keys| && keys[j] == Version(key, w);
    }
  }

  lemma ScanHolds(data: Data, key: Bytes, lo: Version, hi: Version, keys: seq<Key>)
    requires WellTyped(data) && IsVersionScan(data, key, lo, hi, keys)
    ensures forall i :: 0 <= i < |keys| ==> keys[i].Version? && keys[i] in data && data[keys[i]].Written?
  {
  }

  lemma LastVisible(data: Data, t: TransactionState, key: Bytes, keys: seq<Key>, i: nat)
    requires WellTyped(data) && IsVersionScan(data, key, 0, t.version, keys) && i < |keys|
    requires Visible(t, keys[i].version)
    requires forall j :: i < j < |keys| ==> !Visible(t, keys[j].version)
    ensures Reads(data, t, key, data[keys[i]].value)
  {
    var u := keys[i].version;
    assert keys[i] == Version(key, u);
    forall w: Version | Version(key, w) in data && Visible(t, w) ensures w <= u {
      assert Version(key, w) in keys;
      var j :| 0 <= j < |keys| && keys[j] == Version(key, w);
    }
    assert IsLastVisible(data, t, key, u);
  }

  lemma NoneVisible(data: Data, t: TransactionState, key: Bytes, keys: seq<Key>)
    requires WellTyped(data) && IsVersionScan(data, key, 0, t.version, keys)
    requires forall j :: 0 <= j < |keys| ==> !Visible(t, keys[j].version)
    ensures Reads(data, t, key, None)
  {
    forall u: Version | Version(key, u) in data ensures !Visible(t, u) {
      if u <= t.version {
        assert Version(key, u) in keys;
        var j :| 0 <= j < |keys| && keys[j] == Version(key, u);
      }
    }
  }
}
