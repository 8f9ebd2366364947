/** The BitCask storage engine (src/storage/bitcask.rs): an append-only file of entries and a
    directory of where the live values are. */
module BitCask {
  import opened Basics
  import opened Keycode

  const KEY_LIMIT: nat := 0x1_0000_0000
  const VALUE_LIMIT: nat := 0x8000_0000

  /** An entry of the log file: its bytes, its key, and its value or a tombstone. */
  datatype Entry = Entry(bytes: Bytes, key: Bytes, value: Option<Bytes>)

  datatype Location = Location(offset: nat, length: nat)

  type KeyDir = map<Bytes, Location>

  // ---------------------------------------------------------------- the format

  lemma FourBytes()
    ensures Pow256(4) == KEY_LIMIT
  {
    assert Pow256(4) == 256 * (256 * (256 * (256 * Pow256(0))));
  }

  /** Four bytes, most significant first. */
  function LengthField(n: nat): (b: Bytes)
    requires n < KEY_LIMIT
    ensures |b| == 4 && FromBigEndian(b) == n
  {
    FourBytes();
    BigEndianRoundTrip(n, 4);
    BigEndian(n, 4)
  }

  /** The lengths fit their fields. */
  predicate Fits(key: Bytes, value: Option<Bytes>) {
    |key| < KEY_LIMIT && (value.Some? ==> |value.value| < VALUE_LIMIT)
  }

  function ValueBytes(value: Option<Bytes>): Bytes {
    if value.Some? then value.value else []
  }

  /** Key length, value length or -1, key, value. */
  function EntryBytes(key: Bytes, value: Option<Bytes>): Bytes
    requires Fits(key, value)
  {
    LengthField(|key|)
    + LengthField(if value.Some? then |value.value| else KEY_LIMIT - 1)
    + key + ValueBytes(value)
  }

  /** The entry at the start of some bytes, unless it is incomplete. A negative length is a
      tombstone. */
  function ReadEntry(f: Bytes): (e: Option<Entry>)
    ensures e.Some? ==> 8 <= |e.value.bytes| <= |f|
  {
    if |f| < 8 then None
    else
      var k, v := FromBigEndian(f[..4]), FromBigEndian(f[4..8]);
      if |f| < 8 + k then None
      else if v >= VALUE_LIMIT then Some(Entry(f[..8 + k], f[8..8 + k], None))
      else if |f| < 8 + k + v then None
      else Some(Entry(f[..8 + k + v], f[8..8 + k], Some(f[8 + k..8 + k + v])))
  }

  predicate IsEntry(e: Entry) {
    ReadEntry(e.bytes) == Some(e)
  }

  lemma WrittenIsEntry(key: Bytes, value: Option<Bytes>)
    requires Fits(key, value)
    ensures IsEntry(Entry(EntryBytes(key, value), key, value))
  {
    var b := EntryBytes(key, value);
    var v := if value.Some? then |value.value| else KEY_LIMIT - 1;
    var x, y := LengthField(|key|), LengthField(v);
    assert b == x + y + key + ValueBytes(value);
    hide LengthField, EntryBytes, FromBigEndian;
    FourParts(x, y, key, ValueBytes(value), b);
  }

  lemma FourParts(x: Bytes, y: Bytes, key: Bytes, value: Bytes, b: Bytes)
    requires |x| == |y| == 4 && b == x + y + key + value
    ensures b[..4] == x && b[4..8] == y && b[8..8 + |key|] == key && b[8 + |key|..8 + |key| + |value|] == value
    ensures b[..8 + |key| + |value|] == b
  {
  }

  /** What follows an entry does not matter. */
  lemma ReadWithMore(e: Entry, rest: Bytes)
    requires IsEntry(e)
    ensures ReadEntry(e.bytes + rest) == Some(e)
  {
    var f, b := e.bytes + rest, e.bytes;
    assert f[..4] == b[..4] && f[4..8] == b[4..8];
    var k, v := FromBigEndian(f[..4]), FromBigEndian(f[4..8]);
    assert f[8..8 + k] == b[8..8 + k] && f[..|b|] == b[..|b|];
    if v < VALUE_LIMIT { assert f[8 + k..8 + k + v] == b[8 + k..8 + k + v]; }
  }

  /** An entry cut short is not read. */
  lemma ReadCut(e: Entry, n: nat)
    requires IsEntry(e) && n < |e.bytes|
    ensures ReadEntry(e.bytes[..n]) == None
  {
    var f := e.bytes[..n];
    if n >= 8 { assert f[..4] == e.bytes[..4] && f[4..8] == e.bytes[4..8]; }
  }

  lemma ReadIsEntry(f: Bytes)
    requires ReadEntry(f).Some?
    ensures IsEntry(ReadEntry(f).value) && f == ReadEntry(f).value.bytes + f[|ReadEntry(f).value.bytes|..]
  {
    var e := ReadEntry(f).value;
    var b := e.bytes;
    assert f == b + f[|b|..] && b == f[..|b|];
    assert b[..4] == f[..4] && b[4..8] == f[4..8];
    var k, v := FromBigEndian(f[..4]), FromBigEndian(f[4..8]);
    assert b[8..8 + k] == f[8..8 + k] && b[..|b|] == b;
    if v < VALUE_LIMIT { assert b[8 + k..8 + k + v] == f[8 + k..8 + k + v]; }
  }

  // ---------------------------------------------------------------- files

  /** The complete entries at the start of a file. */
  function Entries(f: Bytes): (es: seq<Entry>)
    decreases |f|
  {
    var e := ReadEntry(f);
    if e.None? then [] else [e.value] + Entries(f[|e.value.bytes|..])
  }

  function Concat(es: seq<Entry>): Bytes {
    if es == [] then [] else Concat(es[..|es| - 1]) + es[|es| - 1].bytes
  }

  ghost predicate AllEntries(es: seq<Entry>) {
    forall i :: 0 <= i < |es| ==> IsEntry(es[i])
  }

  lemma {:induction false} ConcatHead(e: Entry, es: seq<Entry>)
    ensures Concat([e] + es) == e.bytes + Concat(es)
  {
    var all := [e] + es;
    if es == [] {
      assert all == [e] && all[..0] == [];
    } else {
      assert all[..|all| - 1] == [e] + es[..|es| - 1];
      ConcatHead(e, es[..|es| - 1]);
    }
  }

  /** Reading back what was written finds the entries and stops at what is incomplete. */
  lemma {:induction false} EntriesOf(es: seq<Entry>, rest: Bytes)
    requires AllEntries(es) && ReadEntry(rest) == None
    ensures Entries(Concat(es) + rest) == es
  {
    if es == [] {
      assert Concat(es) + rest == rest;
    } else {
      var e, tail := es[0], es[1..];
      assert es == [e] + tail;
      ConcatHead(e, tail);
      var f := Concat(es) + rest;
      assert f == e.bytes + (Concat(tail) + rest);
      ReadWithMore(e, Concat(tail) + rest);
      assert f[|e.bytes|..] == Concat(tail) + rest;
      EntriesOf(tail, rest);
    }
  }

  lemma EntriesStep(f: Bytes, e: Entry)
    requires ReadEntry(f) == Some(e)
    ensures |e.bytes| <= |f| && Entries(f) == [e] + Entries(f[|e.bytes|..])
  {
  }

  lemma AllWith(e: Entry, es: seq<Entry>)
    requires IsEntry(e) && AllEntries(es)
    ensures AllEntries([e] + es) && AllEntries(es + [e])
  {
  }

  /** A file is its complete entries and a rest that is not one. */
  lemma {:induction false} EntriesAreEntries(f: Bytes) returns (rest: Bytes)
    ensures AllEntries(Entries(f)) && f == Concat(Entries(f)) + rest && ReadEntry(rest) == None
    decreases |f|
  {
    if ReadEntry(f).None? {
      rest := f;
      assert Entries(f) == [] && Concat([]) + f == f;
    } else {
      hide *;
      var e := ReadEntry(f).value;
      ReadIsEntry(f);
      EntriesStep(f, e);
      var tail := f[|e.bytes|..];
      rest := EntriesAreEntries(tail);
      AllWith(e, Entries(tail));
      ConcatHead(e, Entries(tail));
      assert e.bytes + (Concat(Entries(tail)) + rest) == (e.bytes + Concat(Entries(tail))) + rest;
    }
  }

  /** k entries end within the first n bytes, and no more do. */
  ghost predicate WholeWithin(es: seq<Entry>, n: nat, k: nat) {
    && k <= |es|
    && |Concat(es[..k])| <= n
    && (k < |es| ==> n < |Concat(es[..k + 1])|)
  }

  lemma {:induction false} WholeExists(es: seq<Entry>, n: nat) returns (k: nat)
    requires n <= |Concat(es)|
    ensures WholeWithin(es, n, k)
  {
    k := 0;
    assert es[..0] == [] && es[..|es|] == es;
    while k < |es| && |Concat(es[..k + 1])| <= n
      invariant k <= |es| && |Concat(es[..k])| <= n
    {
      k := k + 1;
    }
  }

  lemma {:induction false} ConcatSplit(es: seq<Entry>, k: nat)
    requires k <= |es|
    ensures |Concat(es[..k])| <= |Concat(es)| && Concat(es)[..|Concat(es[..k])|] == Concat(es[..k])
    ensures k < |es| ==> |Concat(es[..k + 1])| <= |Concat(es)| && Concat(es[..k + 1]) == Concat(es[..k]) + es[k].bytes
    decreases |es|
  {
    assert es[..|es|] == es;
    if k < |es| {
      assert es[..k + 1][..k] == es[..k];
      if k + 1 < |es| {
        var init := es[..|es| - 1];
        ConcatSplit(init, k);
        assert init[..k] == es[..k] && init[..k + 1] == es[..k + 1];
      }
    }
  }

  /** Crash recovery: a log cut at any byte holds exactly the entries that are complete. */
  lemma CutRecovery(es: seq<Entry>, n: nat, k: nat)
    requires AllEntries(es) && n <= |Concat(es)| && WholeWithin(es, n, k)
    ensures Entries(Concat(es)[..n]) == es[..k]
    ensures Concat(Entries(Concat(es)[..n])) == Concat(es)[..|Concat(es[..k])|]
  {
    var whole, f := Concat(es[..k]), Concat(es)[..n];
    ConcatSplit(es, k);
    assert AllEntries(es[..k]);
    var rest := f[|whole|..];
    assert f == whole + rest by { assert f[..|whole|] == Concat(es)[..|whole|]; }
    CutRest(es, n, k, rest);
    hide ReadEntry, IsEntry, Entries, AllEntries, WholeWithin;
    EntriesOf(es[..k], rest);
  }

  lemma CutInside(all: Bytes, whole: Bytes, b: Bytes, n: nat, rest: Bytes)
    requires |whole| <= n < |whole| + |b| <= |all| && all[..|whole| + |b|] == whole + b && all[..n] == whole + rest
    ensures rest == b[..n - |whole|]
  {
    assert all[..n] == all[..|whole| + |b|][..n] == (whole + b)[..n] == whole + b[..n - |whole|];
    assert rest == (whole + rest)[|whole|..];
  }

  /** What is left after the complete entries is not one. */
  lemma CutRest(es: seq<Entry>, n: nat, k: nat, rest: Bytes)
    requires AllEntries(es) && n <= |Concat(es)| && WholeWithin(es, n, k) && Concat(es)[..n] == Concat(es[..k]) + rest
    ensures ReadEntry(rest) == None
  {
    hide ReadEntry, IsEntry, Concat;
    var whole := Concat(es[..k]);
    if k < |es| {
      var e := es[k];
      ConcatSplit(es, k + 1);
      ConcatNext(es, k);
      CutInside(Concat(es), whole, e.bytes, n, rest);
      ReadCut(e, n - |whole|);
    } else {
      assert es[..k] == es && Concat(es)[..n] == Concat(es);
      assert rest == [];
      NothingRead();
    }
  }

  lemma ConcatNext(es: seq<Entry>, k: nat)
    requires k < |es|
    ensures Concat(es[..k + 1]) == Concat(es[..k]) + es[k].bytes
  {
    assert es[..k + 1][..k] == es[..k];
  }

  // ---------------------------------------------------------------- contents and directory

  /** The map after a sequence of sets and deletes. */
  function Replay(es: seq<Entry>): map<Bytes, Bytes> {
    if es == [] then map[]
    else
      var m, e := Replay(es[..|es| - 1]), es[|es| - 1];
      if e.value.Some? then m[e.key := e.value.value] else m - {e.key}
  }

  /** Where the value of an entry that starts at an offset is. */
  function LocationOf(e: Entry, offset: nat): Location
    requires IsEntry(e) && e.value.Some?
  {
    Location(offset + 8 + |e.key|, |e.value.value|)
  }

  function Record(d: KeyDir, e: Entry, offset: nat): KeyDir
    requires IsEntry(e)
  {
    if e.value.Some? then d[e.key := LocationOf(e, offset)] else d - {e.key}
  }

  /** The directory that reading the entries builds. */
  function Directory(es: seq<Entry>): KeyDir
    requires AllEntries(es)
  {
    if es == [] then map[]
    else
      var init := es[..|es| - 1];
      Record(Directory(init), es[|es| - 1], |Concat(init)|)
  }

  predicate Within(f: Bytes, l: Location) {
    l.offset + l.length <= |f|
  }

  function ReadAt(f: Bytes, l: Location): Bytes
    requires Within(f, l)
  {
    f[l.offset..l.offset + l.length]
  }

  lemma EntryValueAt(e: Entry)
    requires IsEntry(e) && e.value.Some?
    ensures 8 + |e.key| + |e.value.value| == |e.bytes| && e.bytes[8 + |e.key|..] == e.value.value
  {
    var b := e.bytes;
    var k, v := FromBigEndian(b[..4]), FromBigEndian(b[4..8]);
    assert b[..8 + k + v] == b;
  }

  /** The directory locates exactly the live keys and their values. */
  lemma {:induction false} DirectoryExact(es: seq<Entry>, k: Bytes)
    requires AllEntries(es)
    ensures k in Directory(es) <==> k in Replay(es)
    ensures k in Directory(es) ==>
        Within(Concat(es), Directory(es)[k]) && ReadAt(Concat(es), Directory(es)[k]) == Replay(es)[k]
  {
    hide ReadEntry, IsEntry;
    if es != [] {
      var init, e := es[..|es| - 1], es[|es| - 1];
      assert IsEntry(e) && AllEntries(init);
      DirectoryExact(init, k);
      if k == e.key && e.value.Some? {
        EntryValueAt(e);
        AppendedAt(Concat(init), e.bytes, LocationOf(e, |Concat(init)|));
      } else if k != e.key && k in Directory(init) {
        KeptAt(Concat(init), e.bytes, Directory(init)[k]);
      }
    }
  }

  lemma AppendedAt(f: Bytes, b: Bytes, l: Location)
    requires |f| <= l.offset && l.offset + l.length == |f| + |b|
    ensures Within(f + b, l) && ReadAt(f + b, l) == b[l.offset - |f|..]
  {
  }

  lemma KeptAt(f: Bytes, b: Bytes, l: Location)
    requires Within(f, l)
    ensures Within(f + b, l) && ReadAt(f + b, l) == ReadAt(f, l)
  {
  }

  // ---------------------------------------------------------------- sizes

  /** The bytes of the live keys and values. */
  ghost function LiveSize(m: map<Bytes, Bytes>): nat
    decreases |m|
  {
    if m == map[] then 0
    else
      var k :| k in m;
      |k| + |m[k]| + LiveSize(m - {k})
  }

  lemma {:induction false} LiveSizeWithout(m: map<Bytes, Bytes>, k: Bytes)
    requires k in m
    ensures LiveSize(m) == |k| + |m[k]| + LiveSize(m - {k})
    decreases |m|
  {
    var j :| j in m && LiveSize(m) == |j| + |m[j]| + LiveSize(m - {j});
    if j != k {
      LiveSizeWithout(m - {j}, k);
      LiveSizeWithout(m - {k}, j);
      assert m - {j} - {k} == m - {k} - {j};
    }
  }

  lemma LiveSizeWith(m: map<Bytes, Bytes>, k: Bytes, v: Bytes)
    requires k !in m
    ensures LiveSize(m[k := v]) == LiveSize(m) + |k| + |v| && |m[k := v]| == |m| + 1
  {
    LiveSizeWithout(m[k := v], k);
    assert m[k := v] - {k} == m;
  }

  /** No entry is a tombstone or replaced by a later one. */
  ghost predicate NoGarbage(es: seq<Entry>) {
    && (forall i :: 0 <= i < |es| ==> es[i].value.Some?)
    && (forall i, j :: 0 <= i < j < |es| ==> es[i].key != es[j].key)
  }

  /** The bytes that live data takes in a file. */
  ghost function LiveBytes(m: map<Bytes, Bytes>): nat {
    LiveSize(m) + 8 * |m|
  }

  lemma LiveBytesStep(m: map<Bytes, Bytes>, k: Bytes, v: Bytes)
    ensures k in m ==> LiveBytes(m) > LiveBytes(m - {k})
    ensures k !in m ==> m - {k} == m
    ensures LiveBytes(m[k := v]) == LiveBytes(m - {k}) + 8 + |k| + |v|
  {
    hide LiveSize;
    var n := m - {k};
    LiveSizeWith(n, k, v);
    assert m[k := v] == n[k := v];
    if k in m {
      LiveSizeWith(n, k, m[k]);
      assert m == n[k := m[k]];
    }
  }

  lemma {:induction false} ReplayKeys(es: seq<Entry>)
    ensures forall k :: k in Replay(es) ==> exists i :: 0 <= i < |es| && es[i].key == k
    ensures NoGarbage(es) ==> forall i :: 0 <= i < |es| ==> es[i].key in Replay(es)
  {
    if es != [] {
      var init := es[..|es| - 1];
      ReplayKeys(init);
      forall k | k in Replay(init) ensures exists i :: 0 <= i < |es| && es[i].key == k {
        var i :| 0 <= i < |init| && init[i].key == k;
        assert es[i].key == k;
      }
      if NoGarbage(es) {
        assert forall i :: 0 <= i < |init| ==> init[i] == es[i];
        assert NoGarbage(init);
      }
    }
  }

  lemma GarbageStep(es: seq<Entry>)
    requires es != []
    ensures var init, e := es[..|es| - 1], es[|es| - 1];
            NoGarbage(es) <==> NoGarbage(init) && e.value.Some? && e.key !in Replay(init)
  {
    var init, e := es[..|es| - 1], es[|es| - 1];
    ReplayKeys(init);
    hide Replay;
    assert forall i :: 0 <= i < |init| ==> init[i] == es[i];
  }

  /** A file is never smaller than its live data, and as small exactly if it has no garbage. */
  lemma {:induction false} GarbageSize(es: seq<Entry>)
    requires AllEntries(es)
    ensures LiveBytes(Replay(es)) <= |Concat(es)|
    ensures LiveBytes(Replay(es)) == |Concat(es)| <==> NoGarbage(es)
  {
    hide ReadEntry, IsEntry, LiveSize, LiveBytes;
    if es == [] {
      NoLiveBytes();
    } else {
      var init, e := es[..|es| - 1], es[|es| - 1];
      assert IsEntry(e) && AllEntries(init);
      GarbageSize(init);
      GarbageStep(es);
      EntryLength(e);
      LiveBytesStep(Replay(init), e.key, ValueBytes(e.value));
    }
  }

  /** The live size without the keys still to do. */
  ghost function DoneSize(m: map<Bytes, Bytes>, todo: set<Bytes>): nat {
    LiveSize(m - todo)
  }

  lemma DoneSizes(m: map<Bytes, Bytes>)
    ensures DoneSize(m, m.Keys) == 0 && DoneSize(m, {}) == LiveSize(m)
  {
    NoLiveBytes();
    assert m - m.Keys == map[] && m - {} == m;
  }

  lemma DoneOne(m: map<Bytes, Bytes>, todo: set<Bytes>, k: Bytes)
    requires todo <= m.Keys && k in todo
    ensures DoneSize(m, todo - {k}) == DoneSize(m, todo) + |k| + |m[k]|
  {
    hide LiveSize;
    LiveSizeWith(m - todo, k, m[k]);
    assert (m - todo)[k := m[k]] == m - (todo - {k});
  }

  lemma DirectoryLengths(es: seq<Entry>)
    requires AllEntries(es)
    ensures Directory(es).Keys == Replay(es).Keys && |Directory(es)| == |Replay(es)|
    ensures forall k :: k in Directory(es) ==> Directory(es)[k].length == |Replay(es)[k]|
  {
    hide *;
    var d, m := Directory(es), Replay(es);
    forall k ensures (k in d <==> k in m) && (k in d ==> d[k].length == |m[k]|) { EntryLengths(es, k); }
    assert d.Keys == m.Keys;
    assert |d| == |d.Keys| && |m| == |m.Keys|;
  }

  lemma EntryLengths(es: seq<Entry>, k: Bytes)
    requires AllEntries(es)
    ensures k in Directory(es) <==> k in Replay(es)
    ensures k in Directory(es) ==> Directory(es)[k].length == |Replay(es)[k]|
  {
    DirectoryExact(es, k);
    hide Directory, Replay, AllEntries, Concat;
  }

  lemma NoLiveBytes()
    ensures LiveBytes(map[]) == 0 && LiveSize(map[]) == 0
  {
  }

  lemma EntryLength(e: Entry)
    requires IsEntry(e)
    ensures |e.bytes| == 8 + |e.key| + |ValueBytes(e.value)|
  {
    if e.value.Some? { EntryValueAt(e); }
  }

  // ---------------------------------------------------------------- histories

  /** A set of a key to a value, or a deletion. */
  datatype Operation = Operation(key: Bytes, value: Option<Bytes>)

  ghost predicate AllFit(ops: seq<Operation>) {
    forall i :: 0 <= i < |ops| ==> Fits(ops[i].key, ops[i].value)
  }

  /** The map after some operations on it. */
  function Perform(m: map<Bytes, Bytes>, ops: seq<Operation>): map<Bytes, Bytes> {
    if ops == [] then m
    else
      var n, op := Perform(m, ops[..|ops| - 1]), ops[|ops| - 1];
      if op.value.Some? then n[op.key := op.value.value] else n - {op.key}
  }

  function EntryOf(op: Operation): Entry
    requires Fits(op.key, op.value)
  {
    Entry(EntryBytes(op.key, op.value), op.key, op.value)
  }

  /** The entries that some operations append, one each. */
  function EntriesFor(ops: seq<Operation>): (es: seq<Entry>)
    requires AllFit(ops)
    ensures |es| == |ops|
  {
    seq(|ops|, i requires 0 <= i < |ops| => EntryOf(ops[i]))
  }

  lemma {:induction false} Performed(es: seq<Entry>, ops: seq<Operation>)
    requires AllEntries(es) && AllFit(ops)
    ensures AllEntries(es + EntriesFor(ops)) && Replay(es + EntriesFor(ops)) == Perform(Replay(es), ops)
  {
    hide ReadEntry, IsEntry, EntryBytes;
    if ops == [] {
      assert es + EntriesFor(ops) == es;
    } else {
      var init, op := ops[..|ops| - 1], ops[|ops| - 1];
      var done := es + EntriesFor(init);
      Performed(es, init);
      WrittenIsEntry(op.key, op.value);
      AllWith(EntryOf(op), done);
      assert es + EntriesFor(ops) == done + [EntryOf(op)];
      assert (done + [EntryOf(op)])[..|done|] == done;
    }
  }

  /** Crash recovery of histories: if the file of some entries, appended to by any sets and
      deletes, is cut at any byte after those entries, then opening it finds the map after the
      operations that were written completely, and after no others. */
  lemma CutHistory(es: seq<Entry>, ops: seq<Operation>, n: nat) returns (k: nat)
    requires AllEntries(es) && AllFit(ops) && |Concat(es)| <= n <= |Concat(es + EntriesFor(ops))|
    ensures k <= |ops| && |Concat(es + EntriesFor(ops[..k]))| <= n
    ensures k < |ops| ==> n < |Concat(es + EntriesFor(ops[..k + 1]))|
    ensures Replay(Entries(Concat(es + EntriesFor(ops))[..n])) == Perform(Replay(es), ops[..k])
  {
    hide *;
    Performed(es, ops);
    k := WholeOperations(es, ops, n);
    CutWhole(es, ops, n, k);
  }

  lemma WholeOperations(es: seq<Entry>, ops: seq<Operation>, n: nat) returns (k: nat)
    requires AllFit(ops) && |Concat(es)| <= n <= |Concat(es + EntriesFor(ops))|
    ensures k <= |ops| && WholeWithin(es + EntriesFor(ops), n, |es| + k)
  {
    hide *;
    var all := es + EntriesFor(ops);
    StartsWithAll(es, ops);
    var whole := WholeExists(all, n);
    WholeIs(all, n, whole);
    WholeBeyond(es, all, n, whole);
    k := whole - |es|;
  }

  lemma StartsWithAll(es: seq<Entry>, ops: seq<Operation>)
    requires AllFit(ops)
    ensures var all := es + EntriesFor(ops); |all| == |es| + |ops| && all[..|es|] == es
  {
    hide EntriesFor;
  }

  lemma CutWhole(es: seq<Entry>, ops: seq<Operation>, n: nat, k: nat)
    requires AllEntries(es) && AllFit(ops) && n <= |Concat(es + EntriesFor(ops))| && k <= |ops|
    requires WholeWithin(es + EntriesFor(ops), n, |es| + k)
    ensures |Concat(es + EntriesFor(ops[..k]))| <= n
    ensures k < |ops| ==> n < |Concat(es + EntriesFor(ops[..k + 1]))|
    ensures Replay(Entries(Concat(es + EntriesFor(ops))[..n])) == Perform(Replay(es), ops[..k])
  {
    hide *;
    var all := es + EntriesFor(ops);
    Performed(es, ops);
    WholeIs(all, n, |es| + k);
    CutRecovery(all, n, |es| + k);
    FitsPrefix(es, ops, k);
    Performed(es, ops[..k]);
    if k < |ops| { FitsPrefix(es, ops, k + 1); }
  }

  lemma WholeIs(es: seq<Entry>, n: nat, k: nat)
    requires WholeWithin(es, n, k)
    ensures k <= |es| && |Concat(es[..k])| <= n && (k < |es| ==> n < |Concat(es[..k + 1])|)
  {
  }

  /** A cut after some entries keeps them all. */
  lemma WholeBeyond(es: seq<Entry>, all: seq<Entry>, n: nat, k: nat)
    requires |es| <= |all| && all[..|es|] == es && |Concat(es)| <= n && WholeWithin(all, n, k)
    ensures |es| <= k
  {
    if k < |es| {
      ConcatStarts(es, all, k);
      assert false;
    }
  }

  lemma ConcatStarts(es: seq<Entry>, all: seq<Entry>, k: nat)
    requires k < |es| <= |all| && all[..|es|] == es
    ensures |Concat(all[..k + 1])| <= |Concat(es)|
  {
    ConcatSplit(es, k);
    assert es[..k + 1] == all[..k + 1];
  }

  lemma FitsPrefix(es: seq<Entry>, ops: seq<Operation>, k: nat)
    requires AllFit(ops) && k <= |ops|
    ensures AllFit(ops[..k]) && (es + EntriesFor(ops))[..|es| + k] == es + EntriesFor(ops[..k])
  {
    hide EntryBytes, Fits;
  }

  // ---------------------------------------------------------------- the engine in place

  class BitCask {
    var file: Bytes
    var keydir: KeyDir

    /** The file is all complete entries, and the directory is what reading them builds. */
    ghost predicate Valid()
      reads this
    {
      && AllEntries(Entries(file))
      && file == Concat(Entries(file))
      && keydir == Directory(Entries(file))
    }

    /** The stored map. */
    ghost function Contents(): map<Bytes, Bytes>
      reads this
    {
      Replay(Entries(file))
    }

    /** Opens a file: reads entry by entry, and cuts off an incomplete one. */
    constructor (bytes: Bytes)
      ensures Valid() && Entries(file) == Entries(bytes) && Contents() == Replay(Entries(bytes))
    {
      file := bytes;
      keydir := map[];
      new;
      StartReading(bytes);
      NothingRead();
      hide ReadEntry, IsEntry, Entries, Concat, AllEntries, Directory, Record, Replay;
      var offset := 0;
      ghost var done: seq<Entry> := [];
      while offset < |file|
        invariant file == bytes && offset <= |bytes|
        invariant AllEntries(done) && Concat(done) == bytes[..offset] && keydir == Directory(done)
        invariant done + Entries(bytes[offset..]) == Entries(bytes)
      {
        var e := ReadEntry(file[offset..]);
        if e.None? {
          OpenedFile(bytes, offset, done);
          file := file[..offset];
          return;
        }
        ReadIsEntry(file[offset..]);
        keydir := Record(keydir, e.value, offset);
        DoneStep(bytes, offset, done, e.value);
        done := done + [e.value];
        offset := offset + |e.value.bytes|;
      }
      assert bytes[offset..] == [] && bytes[..offset] == bytes;
      OpenedFile(bytes, offset, done);
    }

    /** Appends an entry, and returns where its value is. */
    method WriteEntry(key: Bytes, value: Option<Bytes>) returns (l: Location)
      requires Fits(key, value) && AllEntries(Entries(file)) && file == Concat(Entries(file))
      modifies this`file
      ensures var e := Entry(EntryBytes(key, value), key, value);
              && IsEntry(e) && Entries(file) == old(Entries(file)) + [e]
              && AllEntries(Entries(file)) && file == Concat(Entries(file))
              && Directory(Entries(file)) == Record(Directory(old(Entries(file))), e, |old(file)|)
              && (value.Some? ==> l == LocationOf(e, |old(file)|))
    {
      var offset := |file|;
      AppendedEntry(file, key, value);
      file := file + EntryBytes(key, value);
      l := Location(offset + 8 + |key|, |ValueBytes(value)|);
    }

    method Put(key: Bytes, value: Bytes)
      requires Valid() && Fits(key, Some(value))
      modifies this
      ensures Valid() && Contents() == old(Contents())[key := value]
      ensures Entries(file) == old(Entries(file)) + [Entry(EntryBytes(key, Some(value)), key, Some(value))]
    {
      hide ReadEntry, IsEntry, EntryBytes;
      ghost var es := Entries(file);
      var l := WriteEntry(key, Some(value));
      keydir := keydir[key := l];
      assert Entries(file)[..|es|] == es;
    }

    method Delete(key: Bytes)
      requires Valid() && Fits(key, None)
      modifies this
      ensures Valid() && Contents() == old(Contents()) - {key}
      ensures Entries(file) == old(Entries(file)) + [Entry(EntryBytes(key, None), key, None)]
    {
      hide ReadEntry, IsEntry, EntryBytes;
      ghost var es := Entries(file);
      var l := WriteEntry(key, None);
      keydir := keydir - {key};
      assert Entries(file)[..|es|] == es;
    }

    method Get(key: Bytes) returns (value: Option<Bytes>)
      requires Valid()
      ensures value == if key in Contents() then Some(Contents()[key]) else None
    {
      hide ReadEntry, IsEntry;
      DirectoryExact(Entries(file), key);
      if key !in keydir { return None; }
      return Some(ReadAt(file, keydir[key]));
    }

    /** Counts live keys and bytes, and how much of the file they take. */
    method Status() returns (keys: nat, size: nat, diskSize: nat, liveDiskSize: nat)
      requires Valid()
      ensures keys == |Contents()| && size == LiveSize(Contents()) && diskSize == |file|
      ensures liveDiskSize == LiveBytes(Contents()) <= diskSize
      ensures liveDiskSize == diskSize <==> NoGarbage(Entries(file))
    {
      ghost var es := Entries(file);
      assert LiveBytes(Contents()) == LiveSize(Contents()) + 8 * |Contents()|;
      hide ReadEntry, IsEntry, Directory, LiveSize, LiveBytes, NoGarbage, Entries, Replay, Concat, AllEntries;
      DirectoryLengths(es);
      keys, diskSize := |keydir|, |file|;
      size := LiveLengths(Contents());
      liveDiskSize := size + 8 * keys;
      GarbageSize(es);
    }

    /** Adds up the lengths of keys and values. */
    method LiveLengths(ghost m: map<Bytes, Bytes>) returns (size: nat)
      requires keydir.Keys == m.Keys && forall k :: k in keydir ==> keydir[k].length == |m[k]|
      ensures size == LiveSize(m)
    {
      var todo := keydir.Keys;
      size := 0;
      DoneSizes(m);
      hide DoneSize;
      while todo != {}
        invariant todo <= m.Keys && size == DoneSize(m, todo)
        decreases |todo|
      {
        var k :| k in todo;
        DoneOne(m, todo, k);
        size, todo := size + |k| + keydir[k].length, todo - {k};
      }
    }

    /** Writes the live entries to a new file, in any order, and replaces the file. */
    method Compact()
      requires Valid()
      modifies this
      ensures Valid() && Contents() == old(Contents()) && NoGarbage(Entries(file))
      ensures |file| == LiveBytes(Contents())
    {
      hide ReadEntry, IsEntry, EntryBytes, LiveBytes, Directory, AllEntries, Entries, Replay, Concat, Fits, NoGarbage;
      ContentsFit(Entries(file));
      var compacted := new BitCask([]);
      NothingYet();
      var todo := keydir.Keys;
      ghost var contents := Contents();
      forall k ensures k in todo <==> k in contents { DirectoryExact(Entries(file), k); }
      assert contents - todo == map[];
      while todo != {}
        invariant Valid() && contents == Contents() && unchanged(this)
        invariant compacted.Valid() && NoGarbage(Entries(compacted.file))
        invariant todo <= contents.Keys && compacted.Contents() == contents - todo
        decreases |todo|
      {
        var k :| k in todo;
        var value := Get(k);
        ghost var es := Entries(compacted.file);
        compacted.Put(k, value.value);
        Recorded(es, Entries(compacted.file), k, value.value);
        assert (contents - todo)[k := contents[k]] == contents - (todo - {k});
        todo := todo - {k};
      }
      file, keydir := compacted.file, compacted.keydir;
      assert contents - {} == contents;
      GarbageSize(Entries(file));
    }
  }

  lemma DirectoryStep(es: seq<Entry>, e: Entry)
    requires AllEntries(es) && IsEntry(e)
    ensures AllEntries(es + [e])
    ensures Directory(es + [e]) == Record(Directory(es), e, |Concat(es)|)
    ensures Concat(es + [e]) == Concat(es) + e.bytes
  {
    hide ReadEntry, IsEntry, Record;
    AllWith(e, es);
    assert (es + [e])[..|es|] == es;
  }

  lemma DoneStep(bytes: Bytes, offset: nat, done: seq<Entry>, e: Entry)
    requires offset <= |bytes| && ReadEntry(bytes[offset..]) == Some(e) && IsEntry(e)
    requires AllEntries(done) && Concat(done) == bytes[..offset] && done + Entries(bytes[offset..]) == Entries(bytes)
    ensures offset + |e.bytes| <= |bytes|
    ensures AllEntries(done + [e]) && Concat(done + [e]) == bytes[..offset + |e.bytes|]
    ensures Directory(done + [e]) == Record(Directory(done), e, offset)
    ensures (done + [e]) + Entries(bytes[offset + |e.bytes|..]) == Entries(bytes)
  {
    hide *;
    var f := bytes[offset..];
    ReadIsEntry(f);
    EntriesStep(f, e);
    DirectoryStep(done, e);
    var n := offset + |e.bytes|;
    assert f[|e.bytes|..] == bytes[n..] && bytes[..n] == bytes[..offset] + e.bytes;
    assert (done + [e]) + Entries(bytes[n..]) == done + ([e] + Entries(bytes[n..]));
  }

  lemma OpenedFile(bytes: Bytes, offset: nat, done: seq<Entry>)
    requires offset <= |bytes| && AllEntries(done) && Concat(done) == bytes[..offset]
    requires done + Entries(bytes[offset..]) == Entries(bytes) && ReadEntry(bytes[offset..]) == None
    ensures Entries(bytes) == done && Entries(bytes[..offset]) == done
  {
    EntriesOf(done, []);
    assert Concat(done) + [] == bytes[..offset];
  }

  lemma AppendedEntry(f: Bytes, key: Bytes, value: Option<Bytes>)
    requires Fits(key, value) && AllEntries(Entries(f)) && f == Concat(Entries(f))
    ensures var e, g := Entry(EntryBytes(key, value), key, value), f + EntryBytes(key, value);
            && IsEntry(e) && Entries(g) == Entries(f) + [e]
            && AllEntries(Entries(g)) && g == Concat(Entries(g))
            && Directory(Entries(g)) == Record(Directory(Entries(f)), e, |f|)
  {
    hide *;
    var e, es := Entry(EntryBytes(key, value), key, value), Entries(f);
    WrittenIsEntry(key, value);
    DirectoryStep(es, e);
    NothingRead();
    EntriesOf(es + [e], []);
    assert Concat(es + [e]) + [] == f + e.bytes;
  }

  lemma NothingRead()
    ensures ReadEntry([]) == None
  {
  }

  lemma StartReading(bytes: Bytes)
    ensures AllEntries([]) && Concat([]) == bytes[..0] && Directory([]) == map[]
    ensures [] + Entries(bytes[0..]) == Entries(bytes)
  {
    assert bytes[0..] == bytes;
  }

  lemma NothingYet()
    ensures Entries([]) == [] && Replay([]) == map[] && NoGarbage([])
  {
  }

  /** One more live entry. */
  lemma Recorded(es: seq<Entry>, es': seq<Entry>, k: Bytes, v: Bytes)
    requires |es'| == |es| + 1 && es' == es + [Entry(es'[|es|].bytes, k, Some(v))] && k !in Replay(es) && NoGarbage(es)
    ensures Replay(es') == Replay(es)[k := v] && NoGarbage(es')
  {
    assert es'[..|es|] == es;
    GarbageStep(es');
  }

  /** What was read can be written. */
  lemma {:induction false} ContentsFit(es: seq<Entry>)
    requires AllEntries(es)
    ensures forall k :: k in Replay(es) ==> Fits(k, Some(Replay(es)[k]))
  {
    if es != [] {
      ContentsFit(es[..|es| - 1]);
      EntryFits(es[|es| - 1]);
    }
  }

  lemma EntryFits(e: Entry)
    requires IsEntry(e)
    ensures Fits(e.key, e.value)
  {
    var b := e.bytes;
    FourBytes();
    FromBigEndianCanonical(b[..4]);
    FromBigEndianCanonical(b[4..8]);
  }

  /** A process performs some operations and crashes, after which the first n bytes of the file
      are found: what is reopened is the map after some first part of the operations, which
      are all of them if nothing is missing from the file. */
  method CrashAndReopen(db: BitCask, ops: seq<Operation>, n: nat) returns (reopened: BitCask, ghost k: nat)
    requires db.Valid() && AllFit(ops)
    modifies db
    ensures db.Valid() && db.Contents() == Perform(old(db.Contents()), ops)
    ensures fresh(reopened) && reopened.Valid()
    ensures |old(db.file)| <= n <= |db.file| ==>
              k <= |ops| && reopened.Contents() == Perform(old(db.Contents()), ops[..k])
    ensures n >= |db.file| ==> reopened.Contents() == db.Contents()
  {
    ghost var es := Entries(db.file);
    PerformAll(db, ops);
    Performed(es, ops);
    var found := if n <= |db.file| then db.file[..n] else db.file;
    reopened := new BitCask(found);
    k := 0;
    hide *;
    if |Concat(es)| <= n <= |db.file| { k := CutHistory(es, ops, n); }
    assert n == |db.file| ==> db.file[..n] == db.file;
  }

  method PerformAll(db: BitCask, ops: seq<Operation>)
    requires db.Valid() && AllFit(ops)
    modifies db
    ensures db.Valid() && Entries(db.file) == old(Entries(db.file)) + EntriesFor(ops)
  {
    hide ReadEntry, IsEntry, EntryBytes, Entries, AllEntries, Concat, Directory, Fits;
    assert EntriesFor([]) == [];
    for i := 0 to |ops|
      invariant db.Valid() && Entries(db.file) == old(Entries(db.file)) + EntriesFor(ops[..i])
    {
      match ops[i].value
      case Some(value) => db.Put(ops[i].key, value);
      case None => db.Delete(ops[i].key);
      assert EntriesFor(ops[..i + 1]) == EntriesFor(ops[..i]) + [EntryOf(ops[i])];
    }
    assert ops[..|ops|] == ops;
  }
}
