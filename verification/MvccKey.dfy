/** MVCC keys and the byte ranges that scans of them use (src/storage/mvcc.rs,
    src/encoding/keycode.rs). */
module MvccKey {
  import opened Basics
  import opened Keycode

  /** A 64-bit version number. */
  type Version = v: nat | v < 0x1_0000_0000_0000_0000

  const MAX_VERSION: Version := 0xffff_ffff_ffff_ffff

  lemma SixtyFourBits()
    ensures Pow256(8) == 0x1_0000_0000_0000_0000
  {
    assert Pow256(4) == 256 * (256 * (256 * (256 * Pow256(0))));
    assert Pow256(8) == 256 * (256 * (256 * (256 * Pow256(4))));
  }

  /** Eight bytes, most significant first. */
  function VersionKey(v: Version): (b: Bytes)
    ensures |b| == 8
  {
    SixtyFourBits();
    BigEndian(v, 8)
  }

  datatype Key =
    | NextVersion
    | TxnActive(version: Version)
    | TxnActiveSnapshot(version: Version)
    | TxnWrite(version: Version, key: Bytes)
    | Version(key: Bytes, version: Version)
    | Unversioned(key: Bytes)

  function Tag(k: Key): Byte {
    match k
    case NextVersion => 0
    case TxnActive(_) => 1
    case TxnActiveSnapshot(_) => 2
    case TxnWrite(_, _) => 3
    case Version(_, _) => 4
    case Unversioned(_) => 5
  }

  function Fields(k: Key): Bytes {
    match k
    case NextVersion => []
    case TxnActive(v) => VersionKey(v)
    case TxnActiveSnapshot(v) => VersionKey(v)
    case TxnWrite(v, key) => VersionKey(v) + BytesKey(key)
    case Version(key, v) => BytesKey(key) + VersionKey(v)
    case Unversioned(key) => BytesKey(key)
  }

  /** The variant's index, then the fields. */
  function Encode(k: Key): Bytes {
    [Tag(k)] + Fields(k)
  }

  /** The order of keys: by variant, then field by field. */
  function CompareKeys(a: Key, b: Key): Order {
    if Tag(a) != Tag(b) then CompareInt(Tag(a), Tag(b))
    else match a
      case NextVersion => Equal
      case TxnActive(v) => CompareInt(v, b.version)
      case TxnActiveSnapshot(v) => CompareInt(v, b.version)
      case TxnWrite(v, key) => Then(CompareInt(v, b.version), Compare(key, b.key))
      case Version(key, v) => Then(Compare(key, b.key), CompareInt(v, b.version))
      case Unversioned(key) => Compare(key, b.key)
  }

  // ---------------------------------------------------------------- order

  lemma VersionOrder(v: Version, x: Bytes, w: Version, y: Bytes)
    ensures Compare(VersionKey(v) + x, VersionKey(w) + y) == Then(CompareInt(v, w), Compare(x, y))
  {
    SixtyFourBits();
    BigEndianOrder(v, x, w, y, 8);
  }

  lemma IntOrder(v: Version, w: Version)
    ensures Compare(VersionKey(v), VersionKey(w)) == CompareInt(v, w)
  {
    VersionOrder(v, [], w, []);
    assert VersionKey(v) + [] == VersionKey(v) && VersionKey(w) + [] == VersionKey(w);
  }

  lemma StringOrder(a: Bytes, b: Bytes)
    ensures Compare(BytesKey(a), BytesKey(b)) == Compare(a, b)
  {
    BytesOrder(a, [], b, []);
    assert BytesKey(a) + [] == BytesKey(a) && BytesKey(b) + [] == BytesKey(b);
  }

  lemma FieldsOrder(a: Key, b: Key)
    requires Tag(a) == Tag(b)
    ensures Compare(Fields(a), Fields(b)) == CompareKeys(a, b)
  {
    match a
    case NextVersion =>
    case TxnActive(v) => IntOrder(v, b.version);
    case TxnActiveSnapshot(v) => IntOrder(v, b.version);
    case TxnWrite(v, key) => VersionOrder(v, BytesKey(key), b.version, BytesKey(b.key)); StringOrder(key, b.key);
    case Version(key, v) => BytesOrder(key, VersionKey(v), b.key, VersionKey(b.version)); IntOrder(v, b.version);
    case Unversioned(key) => StringOrder(key, b.key);
  }

  /** Encoded keys sort exactly as the keys do, whatever bytes user keys contain. */
  lemma KeyOrder(a: Key, b: Key)
    ensures Compare(Encode(a), Encode(b)) == CompareKeys(a, b)
  {
    CompareHead(Tag(a), Fields(a), Tag(b), Fields(b));
    if Tag(a) == Tag(b) { FieldsOrder(a, b); }
  }

  lemma CompareKeysEqual(a: Key, b: Key)
    ensures CompareKeys(a, b) == Equal <==> a == b
  {
    if Tag(a) == Tag(b) && (a.TxnWrite? || a.Version? || a.Unversioned?) { CompareEqual(a.key, b.key); }
  }

  /** Different keys have different encodings. */
  lemma EncodeInjective(a: Key, b: Key)
    requires Encode(a) == Encode(b)
    ensures a == b
  {
    KeyOrder(a, b);
    CompareEqual(Encode(a), Encode(b));
    CompareKeysEqual(a, b);
  }

  lemma CompareKeysFlip(a: Key, b: Key)
    ensures CompareKeys(b, a) == Flip(CompareKeys(a, b))
  {
    KeyOrder(a, b);
    KeyOrder(b, a);
    CompareFlip(Encode(a), Encode(b));
  }

  // ---------------------------------------------------------------- decoding

  /** Splits off the next 8 bytes as a version. */
  function TakeVersion(s: Bytes): Option<(Version, Bytes)> {
    if |s| < 8 then None
    else
      FromBigEndianCanonical(s[..8]);
      SixtyFourBits();
      Some((FromBigEndian(s[..8]), s[8..]))
  }

  /** Splits off an escaped string. */
  function TakeBytes(s: Bytes): Option<(Bytes, Bytes)> {
    var d := Unescape(s);
    if d.Decoded? then Some((d.bytes, d.rest)) else None
  }

  /** A key, if the bytes are those of a key with nothing after it. */
  function Decode(s: Bytes): Option<Key> {
    if s == [] then None
    else
      var v, k := TakeVersion(s[1..]), TakeBytes(s[1..]);
      if s[0] == 0 then (if |s| == 1 then Some(NextVersion) else None)
      else if s[0] == 1 && v.Some? && v.value.1 == [] then Some(TxnActive(v.value.0))
      else if s[0] == 2 && v.Some? && v.value.1 == [] then Some(TxnActiveSnapshot(v.value.0))
      else if s[0] == 3 && v.Some? then
        var key := TakeBytes(v.value.1);
        if key.Some? && key.value.1 == [] then Some(TxnWrite(v.value.0, key.value.0)) else None
      else if s[0] == 4 && k.Some? then
        var version := TakeVersion(k.value.1);
        if version.Some? && version.value.1 == [] then Some(Version(k.value.0, version.value.0)) else None
      else if s[0] == 5 && k.Some? && k.value.1 == [] then Some(Unversioned(k.value.0))
      else None
  }

  lemma TakeVersionOf(v: Version, x: Bytes)
    ensures TakeVersion(VersionKey(v) + x) == Some((v, x))
  {
    SixtyFourBits();
    BigEndianRoundTrip(v, 8);
    assert (VersionKey(v) + x)[..8] == VersionKey(v) && (VersionKey(v) + x)[8..] == x;
  }

  lemma TakeVersionCanonical(s: Bytes)
    ensures TakeVersion(s).Some? ==> s == VersionKey(TakeVersion(s).value.0) + TakeVersion(s).value.1
  {
    if |s| >= 8 { FromBigEndianCanonical(s[..8]); }
  }

  lemma TakeBytesOf(k: Bytes, x: Bytes)
    ensures TakeBytes(BytesKey(k) + x) == Some((k, x))
  {
    BytesRoundTrip(k, x);
  }

  lemma NoSuffix(s: Bytes)
    ensures s + [] == s
  {
  }

  lemma DecodeEncode(k: Key)
    ensures Decode(Encode(k)) == Some(k)
  {
    assert Encode(k)[1..] == Fields(k);
    match k
    case NextVersion =>
    case TxnActive(v) => TakeVersionOf(v, []); NoSuffix(VersionKey(v));
    case TxnActiveSnapshot(v) => TakeVersionOf(v, []); NoSuffix(VersionKey(v));
    case TxnWrite(v, key) => TakeVersionOf(v, BytesKey(key)); TakeBytesOf(key, []); NoSuffix(BytesKey(key));
    case Version(key, v) => TakeBytesOf(key, VersionKey(v)); TakeVersionOf(v, []); NoSuffix(VersionKey(v));
    case Unversioned(key) => TakeBytesOf(key, []); NoSuffix(BytesKey(key));
  }

  lemma EncodeDecode(s: Bytes)
    requires Decode(s).Some?
    ensures Encode(Decode(s).value) == s
  {
    var x, k := s[1..], Decode(s).value;
    assert s == [s[0]] + x && s[0] == Tag(k);
    match k
    case NextVersion => assert x == [];
    case TxnActive(v) => TakeVersionCanonical(x); NoSuffix(VersionKey(v));
    case TxnActiveSnapshot(v) => TakeVersionCanonical(x); NoSuffix(VersionKey(v));
    case TxnWrite(v, key) =>
      TakeVersionCanonical(x);
      BytesCanonical(TakeVersion(x).value.1);
      NoSuffix(BytesKey(key));
    case Version(key, v) =>
      BytesCanonical(x);
      TakeVersionCanonical(TakeBytes(x).value.1);
      NoSuffix(VersionKey(v));
    case Unversioned(key) => BytesCanonical(x); NoSuffix(BytesKey(key));
  }

  /** Exactly the encodings of keys decode. */
  lemma DecodeExact(s: Bytes, k: Key)
    ensures Decode(s) == Some(k) <==> s == Encode(k)
  {
    DecodeEncode(k);
    if Decode(s) == Some(k) { EncodeDecode(s); }
  }

  // ---------------------------------------------------------------- ranges

  datatype Bound<T> = Included(bound: T) | Excluded(bound: T) | Unbounded

  predicate AfterStart(start: Bound<Bytes>, k: Bytes) {
    match start
    case Included(b) => Compare(b, k) != Greater
    case Excluded(b) => Compare(b, k) == Less
    case Unbounded => true
  }

  predicate BeforeEnd(end: Bound<Bytes>, k: Bytes) {
    match end
    case Included(b) => Compare(k, b) != Greater
    case Excluded(b) => Compare(k, b) == Less
    case Unbounded => true
  }

  datatype Range = Range(start: Bound<Bytes>, end: Bound<Bytes>)

  predicate InRange(r: Range, k: Bytes) {
    AfterStart(r.start, k) && BeforeEnd(r.end, k)
  }

  predicate StartsWith(k: Bytes, p: Bytes) {
    |p| <= |k| && k[..|p|] == p
  }

  /** The least string after all those that start with the prefix, if there is one. */
  function PrefixEnd(p: Bytes): Option<Bytes> {
    if p == [] then None
    else
      var e := PrefixEnd(p[1..]);
      if e.Some? then Some([p[0]] + e.value)
      else if p[0] < 255 then Some([p[0] + 1])
      else None
  }

  function PrefixRange(p: Bytes): Range {
    var e := PrefixEnd(p);
    Range(Included(p), if e.Some? then Excluded(e.value) else Unbounded)
  }

  lemma {:induction false} PrefixEndAt(p: Bytes, i: nat)
    requires i < |p| && p[i] < 255 && forall j :: i < j < |p| ==> p[j] == 255
    ensures PrefixEnd(p) == Some(p[..i] + [p[i] + 1])
  {
    if i == 0 {
      PrefixEndNone(p[1..]);
      assert p[..i] + [p[i] + 1] == [p[0] + 1];
    } else {
      PrefixEndAt(p[1..], i - 1);
      assert p[..i] + [p[i] + 1] == [p[0]] + (p[1..][..i - 1] + [p[i] + 1]);
    }
  }

  lemma {:induction false} PrefixEndNone(p: Bytes)
    requires forall j :: 0 <= j < |p| ==> p[j] == 255
    ensures PrefixEnd(p) == None
  {
    if p != [] { PrefixEndNone(p[1..]); }
  }

  /** Increments the last byte that is not 0xff and drops what follows it. */
  method ComputePrefixEnd(prefix: Bytes) returns (r: Option<Bytes>)
    ensures r == PrefixEnd(prefix)
  {
    var i := |prefix|;
    while i > 0
      invariant 0 <= i <= |prefix|
      invariant forall j :: i <= j < |prefix| ==> prefix[j] == 255
    {
      if prefix[i - 1] != 255 {
        PrefixEndAt(prefix, i - 1);
        return Some(prefix[..i - 1] + [prefix[i - 1] + 1]);
      }
      i := i - 1;
    }
    PrefixEndNone(prefix);
    return None;
  }

  lemma StartsWithHead(k: Bytes, p: Bytes)
    requires p != []
    ensures StartsWith(k, p) <==> k != [] && k[0] == p[0] && StartsWith(k[1..], p[1..])
  {
    if k != [] && k[0] == p[0] {
      assert p == [p[0]] + p[1..];
      if |p| <= |k| { assert k[..|p|] == [k[0]] + k[1..][..|p| - 1]; }
    } else if |p| <= |k| {
      assert k[..|p|][0] == k[0];
    }
  }

  /** A prefix range holds exactly the strings with the prefix. */
  lemma {:induction false} PrefixRangeExact(p: Bytes, k: Bytes)
    ensures InRange(PrefixRange(p), k) <==> StartsWith(k, p)
  {
    if p != [] {
      StartsWithHead(k, p);
      if k != [] {
        PrefixRangeExact(p[1..], k[1..]);
        var e := PrefixEnd(p[1..]);
        assert k == [k[0]] + k[1..];
        if e.Some? { CompareHead(k[0], k[1..], p[0], e.value); }
        else if p[0] < 255 { NoSuffix([p[0] + 1]); CompareHead(k[0], k[1..], p[0] + 1, []); }
      }
    }
  }

  // ---------------------------------------------------------------- scans of versions

  /** The byte range that `Transaction::scan` hands to the engine. */
  function ScanRange(r: Range): Range {
    Range(
      match r.start
      case Excluded(k) => Excluded(Encode(Version(k, MAX_VERSION)))
      case Included(k) => Included(Encode(Version(k, 0)))
      case Unbounded => Included(Encode(Version([], 0))),
      match r.end
      case Excluded(k) => Excluded(Encode(Version(k, 0)))
      case Included(k) => Included(Encode(Version(k, MAX_VERSION)))
      case Unbounded => Excluded([5]))
  }

  /** A scan selects exactly the versions of the user keys in range. */
  lemma ScanRangeExact(r: Range, k: Key)
    ensures InRange(ScanRange(r), Encode(k)) <==> k.Version? && InRange(r, k.key)
  {
    ScanStart(r.start, k);
    ScanEnd(r.end, k);
  }

  lemma ScanStart(start: Bound<Bytes>, k: Key)
    ensures AfterStart(ScanRange(Range(start, Unbounded)).start, Encode(k)) <==>
              k.Unversioned? || (k.Version? && AfterStart(start, k.key))
  {
    match start
    case Excluded(b) => KeyOrder(Version(b, MAX_VERSION), k);
    case Included(b) => KeyOrder(Version(b, 0), k);
    case Unbounded => KeyOrder(Version([], 0), k);
  }

  lemma ScanEnd(end: Bound<Bytes>, k: Key)
    ensures BeforeEnd(ScanRange(Range(Unbounded, end)).end, Encode(k)) <==>
              Tag(k) < 4 || (k.Version? && BeforeEnd(end, k.key))
  {
    match end
    case Excluded(b) => KeyOrder(k, Version(b, 0));
    case Included(b) => KeyOrder(k, Version(b, MAX_VERSION));
    case Unbounded => NoSuffix([5]); CompareHead(Tag(k), Fields(k), 5, []);
  }

  /** The prefix `Transaction::scan_prefix` uses: the escaped string without its terminator. */
  function VersionPrefix(p: Bytes): Bytes {
    [4] + Escape(p)
  }

  /** It is the encoded prefix key with its last two bytes cut off. */
  lemma VersionPrefixTruncates(p: Bytes)
    ensures var full := [4] + BytesKey(p); VersionPrefix(p) == full[..|full| - 2]
  {
  }

  /** A string with an escaped prefix is one whose original has the prefix. */
  lemma {:induction false} EscapePrefix(p: Bytes, k: Bytes, x: Bytes)
    ensures StartsWith(BytesKey(k) + x, Escape(p)) <==> StartsWith(k, p)
  {
    if p != [] {
      var s, e := BytesKey(k) + x, Escape(p);
      StartsWithHead(k, p);
      StartsWithHead(s, e);
      if k == [] {
        assert s[0] == 0 && s[1..][0] == 0;
        if p[0] == 0 {
          assert e[1..][0] == 255;
          StartsWithHead(s[1..], e[1..]);
        }
      } else {
        HeadOff(k, x);
        if p[0] == k[0] {
          EscapePrefix(p[1..], k[1..], x);
          StartsWithCommon(EscapeByte(p[0]), BytesKey(k[1..]) + x, Escape(p[1..]));
        }
      }
    }
  }

  lemma StartsWithCommon(c: Bytes, k: Bytes, p: Bytes)
    ensures StartsWith(c + k, c + p) <==> StartsWith(k, p)
  {
    if |p| <= |k| {
      assert (c + k)[..|c + p|] == c + k[..|p|];
      if c + k[..|p|] == c + p { assert k[..|p|] == (c + k[..|p|])[|c|..] && p == (c + p)[|c|..]; }
    }
  }

  /** A prefix scan selects exactly the versions of the user keys with the prefix. */
  lemma ScanPrefixExact(p: Bytes, k: Key)
    ensures InRange(PrefixRange(VersionPrefix(p)), Encode(k)) <==> k.Version? && StartsWith(k.key, p)
  {
    PrefixRangeExact(VersionPrefix(p), Encode(k));
    if k.Version? {
      StartsWithCommon([4], Fields(k), Escape(p));
      EscapePrefix(p, k.key, VersionKey(k.version));
    } else {
      StartsWithHead(Encode(k), VersionPrefix(p));
    }
  }

  /** The prefix scans over active transactions and over one transaction's writes select
      exactly those records. */
  lemma RecordPrefixExact(k: Key, v: Version)
    ensures InRange(PrefixRange([1]), Encode(k)) <==> k.TxnActive?
    ensures InRange(PrefixRange([3] + VersionKey(v)), Encode(k)) <==> k.TxnWrite? && k.version == v
  {
    PrefixRangeExact([1], Encode(k));
    assert Encode(k)[..1] == [Tag(k)];
    var p := [3] + VersionKey(v);
    PrefixRangeExact(p, Encode(k));
    if k.TxnWrite? {
      assert Encode(k)[..9] == [3] + VersionKey(k.version);
      if StartsWith(Encode(k), p) {
        assert VersionKey(k.version) == Encode(k)[..9][1..] == p[1..] == VersionKey(v);
        IntOrder(k.version, v);
        CompareEqual(VersionKey(k.version), VersionKey(v));
      }
    } else {
      StartsWithHead(Encode(k), p);
    }
  }

  /** The byte range between two versions of a user key selects exactly the versions between. */
  lemma VersionRangeExact(key: Bytes, lo: Version, hi: Version, k: Key)
    ensures InRange(Range(Included(Encode(Version(key, lo))), Included(Encode(Version(key, hi)))), Encode(k))
            <==> k.Version? && k.key == key && lo <= k.version <= hi
  {
    KeyOrder(Version(key, lo), k);
    KeyOrder(k, Version(key, hi));
    if k.Version? {
      CompareFlip(key, k.key);
      CompareEqual(key, k.key);
    }
  }
}
