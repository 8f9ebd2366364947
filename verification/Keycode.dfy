/** Keycode (src/encoding/keycode.rs): byte strings that sort as the keys they encode. */
module Keycode {

  type Byte = b: int | 0 <= b < 256
  type Bytes = seq<Byte>

  // ---------------------------------------------------------------- lexicographic order

  datatype Order = Less | Equal | Greater

  function CompareInt(a: int, b: int): Order {
    if a < b then Less else if a == b then Equal else Greater
  }

  /** The order in which storage engines keep keys. */
  function Compare(a: Bytes, b: Bytes): Order {
    if a == [] then (if b == [] then Equal else Less)
    else if b == [] then Greater
    else if a[0] != b[0] then CompareInt(a[0], b[0])
    else Compare(a[1..], b[1..])
  }

  /** If the first keys are equal, the second decide. */
  function Then(o: Order, p: Order): Order {
    if o == Equal then p else o
  }

  lemma {:induction false} CompareEqual(a: Bytes, b: Bytes)
    ensures Compare(a, b) == Equal <==> a == b
  {
    if a != [] && b != [] {
      CompareEqual(a[1..], b[1..]);
      assert a == [a[0]] + a[1..] && b == [b[0]] + b[1..];
    }
  }

  function Flip(o: Order): Order {
    match o case Less => Greater case Equal => Equal case Greater => Less
  }

  lemma {:induction false} CompareFlip(a: Bytes, b: Bytes)
    ensures Compare(b, a) == Flip(Compare(a, b))
  {
    if a != [] && b != [] { CompareFlip(a[1..], b[1..]); }
  }

  lemma {:induction false} CompareTransitive(a: Bytes, b: Bytes, c: Bytes)
    requires Compare(a, b) != Greater && Compare(b, c) != Greater
    ensures Compare(a, c) != Greater
    ensures Compare(a, b) == Less || Compare(b, c) == Less ==> Compare(a, c) == Less
  {
    if a != [] && b != [] && c != [] && a[0] == b[0] == c[0] { CompareTransitive(a[1..], b[1..], c[1..]); }
  }

  /** A common prefix does not matter. */
  lemma {:induction false} CompareCommon(p: Bytes, x: Bytes, y: Bytes)
    ensures Compare(p + x, p + y) == Compare(x, y)
  {
    if p == [] {
      assert p + x == x && p + y == y;
    } else {
      assert (p + x)[1..] == p[1..] + x && (p + y)[1..] == p[1..] + y;
      CompareCommon(p[1..], x, y);
    }
  }

  lemma CompareHead(x: Byte, a: Bytes, y: Byte, b: Bytes)
    ensures Compare([x] + a, [y] + b) == Then(CompareInt(x, y), Compare(a, b))
  {
    assert ([x] + a)[1..] == a && ([y] + b)[1..] == b;
  }

  // ---------------------------------------------------------------- escaped byte strings

  function EscapeByte(b: Byte): Bytes {
    if b == 0 then [0, 255] else [b]
  }

  function Escape(v: Bytes): Bytes {
    if v == [] then [] else EscapeByte(v[0]) + Escape(v[1..])
  }

  const TERMINATOR: Bytes := [0, 0]

  function BytesKey(v: Bytes): Bytes {
    Escape(v) + TERMINATOR
  }

  lemma {:induction false} EscapeConcat(a: Bytes, b: Bytes)
    ensures Escape(a + b) == Escape(a) + Escape(b)
  {
    if a == [] {
      assert a + b == b;
    } else {
      assert (a + b)[1..] == a[1..] + b;
      EscapeConcat(a[1..], b);
    }
  }

  method EncodeBytes(v: Bytes) returns (out: Bytes)
    ensures out == BytesKey(v)
  {
    out := [];
    for i := 0 to |v|
      invariant out == Escape(v[..i])
    {
      EscapeConcat(v[..i], [v[i]]);
      assert v[..i + 1] == v[..i] + [v[i]];
      if v[i] == 0 { out := out + [0, 255]; } else { out := out + [v[i]]; }
    }
    assert v[..|v|] == v;
    out := out + [0, 0];
  }

  /** Escaped strings, whatever follows them, sort as the strings they encode. */
  lemma {:induction false} BytesOrder(a: Bytes, x: Bytes, b: Bytes, y: Bytes)
    ensures Compare(BytesKey(a) + x, BytesKey(b) + y) == Then(Compare(a, b), Compare(x, y))
  {
    if a == [] && b == [] {
      CompareCommon(TERMINATOR, x, y);
    } else if a == [] {
      EmptyBefore(x, b, y);
    } else if b == [] {
      EmptyBefore(y, a, x);
      CompareFlip(BytesKey(b) + y, BytesKey(a) + x);
    } else if a[0] == b[0] {
      HeadOff(a, x);
      HeadOff(b, y);
      CompareCommon(EscapeByte(a[0]), BytesKey(a[1..]) + x, BytesKey(b[1..]) + y);
      BytesOrder(a[1..], x, b[1..], y);
    } else {
      HeadOff(a, x);
      HeadOff(b, y);
    }
  }

  lemma HeadOff(a: Bytes, x: Bytes)
    requires a != []
    ensures BytesKey(a) + x == EscapeByte(a[0]) + (BytesKey(a[1..]) + x)
  {
  }

  lemma EmptyBefore(x: Bytes, b: Bytes, y: Bytes)
    requires b != []
    ensures Compare(BytesKey([]) + x, BytesKey(b) + y) == Less
  {
    HeadOff(b, y);
    var u, w := BytesKey([]) + x, BytesKey(b) + y;
    assert u[0] == 0 && u[1] == 0 && w[0] == b[0];
    if b[0] == 0 { assert w[1] == 255 && u[1..][0] == 0 && w[1..][0] == 255; }
  }

  datatype DecodedBytes = Decoded(bytes: Bytes, rest: Bytes) | InvalidEscape | UnexpectedEnd

  function Push(b: Byte, d: DecodedBytes): DecodedBytes {
    if d.Decoded? then Decoded([b] + d.bytes, d.rest) else d
  }

  function Unescape(s: Bytes): DecodedBytes {
    if |s| < 2 then (if s == [0] then InvalidEscape else UnexpectedEnd)
    else if s[0] != 0 then Push(s[0], Unescape(s[1..]))
    else if s[1] == 0 then Decoded([], s[2..])
    else if s[1] == 255 then Push(0, Unescape(s[2..]))
    else InvalidEscape
  }

  /** What has been decoded so far goes in front. */
  function Prepend(p: Bytes, d: DecodedBytes): DecodedBytes {
    if d.Decoded? then Decoded(p + d.bytes, d.rest) else d
  }

  lemma PrependPush(p: Bytes, b: Byte, d: DecodedBytes)
    ensures Prepend(p, Push(b, d)) == Prepend(p + [b], d)
  {
    if d.Decoded? { assert p + ([b] + d.bytes) == (p + [b]) + d.bytes; }
  }

  method DecodeBytes(s: Bytes) returns (r: DecodedBytes)
    ensures r == Unescape(s)
  {
    var decoded: Bytes, pos := [], 0;
    assert s[0..] == s;
    while |s| - pos >= 2
      invariant pos <= |s|
      invariant Unescape(s) == Prepend(decoded, Unescape(s[pos..]))
    {
      var b, c := s[pos], s[pos + 1];
      assert s[pos..][1..] == s[pos + 1..] && s[pos..][2..] == s[pos + 2..];
      if b != 0 {
        PrependPush(decoded, b, Unescape(s[pos + 1..]));
        decoded, pos := decoded + [b], pos + 1;
      } else if c == 0 {
        return Decoded(decoded, s[pos + 2..]);
      } else if c == 255 {
        PrependPush(decoded, 0, Unescape(s[pos + 2..]));
        decoded, pos := decoded + [0], pos + 2;
      } else {
        return InvalidEscape;
      }
    }
    r := if pos < |s| && s[pos] == 0 then InvalidEscape else UnexpectedEnd;
  }

  /** Decoding finds exactly the string that was encoded, and what follows it. */
  lemma {:induction false} BytesRoundTrip(v: Bytes, x: Bytes)
    ensures Unescape(BytesKey(v) + x) == Decoded(v, x)
  {
    var s := BytesKey(v) + x;
    if v == [] {
      assert s[2..] == x;
    } else {
      HeadOff(v, x);
      BytesRoundTrip(v[1..], x);
      assert s[|EscapeByte(v[0])|..] == BytesKey(v[1..]) + x;
    }
  }

  /** Nothing but an encoding decodes. */
  lemma {:induction false} BytesCanonical(s: Bytes)
    ensures Unescape(s).Decoded? ==> s == BytesKey(Unescape(s).bytes) + Unescape(s).rest
  {
    var d := Unescape(s);
    if d.Decoded? {
      if s[0] != 0 {
        BytesCanonical(s[1..]);
        HeadOff(d.bytes, d.rest);
      } else if s[1] == 255 {
        BytesCanonical(s[2..]);
        HeadOff(d.bytes, d.rest);
      }
    }
  }

  // ---------------------------------------------------------------- integers

  function Pow256(n: nat): (p: nat)
    ensures p > 0
  {
    if n == 0 then 1 else 256 * Pow256(n - 1)
  }

  /** The n-byte big-endian form. */
  function BigEndian(v: nat, n: nat): (b: Bytes)
    requires v < Pow256(n)
    ensures |b| == n
    decreases n
  {
    if n == 0 then [] else
      Digit(v, n);
      [v / Pow256(n - 1)] + BigEndian(v % Pow256(n - 1), n - 1)
  }

  lemma MulStep(p: nat, a: int, b: int)
    requires a < b
    ensures p * a + p <= p * b
  {
    assert p * b == p * a + p * (b - a);
    MulAtLeast(p, b - a);
  }

  lemma MulAtLeast(p: nat, k: int)
    requires k >= 1
    ensures p * k >= p
  {
    assert p * k == p * (k - 1) + p;
  }

  lemma Digit(v: nat, n: nat)
    requires n > 0 && v < Pow256(n)
    ensures 0 <= v / Pow256(n - 1) < 256
  {
    SmallQuotient(v / Pow256(n - 1), v % Pow256(n - 1), Pow256(n - 1));
  }

  lemma SmallQuotient(q: nat, r: nat, p: nat)
    requires q * p + r < 256 * p
    ensures q < 256
  {
    if q > 255 { MulStep(p, 255, q); }
  }

  function FromBigEndian(b: Bytes): nat {
    if b == [] then 0 else b[0] * Pow256(|b| - 1) + FromBigEndian(b[1..])
  }

  lemma {:induction false} BigEndianOrder(v: nat, x: Bytes, w: nat, y: Bytes, n: nat)
    requires v < Pow256(n) && w < Pow256(n)
    ensures Compare(BigEndian(v, n) + x, BigEndian(w, n) + y) == Then(CompareInt(v, w), Compare(x, y))
    decreases n
  {
    if n == 0 {
      assert BigEndian(v, n) + x == x && BigEndian(w, n) + y == y;
    } else {
      var p := Pow256(n - 1);
      Digit(v, n);
      Digit(w, n);
      var a, b := BigEndian(v % p, n - 1), BigEndian(w % p, n - 1);
      assert BigEndian(v, n) + x == [v / p] + (a + x);
      assert BigEndian(w, n) + y == [w / p] + (b + y);
      CompareHead(v / p, a + x, w / p, b + y);
      BigEndianOrder(v % p, x, w % p, y, n - 1);
      DivOrder(v, w, p);
    }
  }

  lemma DivOrder(v: nat, w: nat, p: nat)
    requires p > 0
    ensures CompareInt(v, w) == Then(CompareInt(v / p, w / p), CompareInt(v % p, w % p))
  {
    var a, r, b, t := v / p, v % p, w / p, w % p;
    assert v == p * a + r && w == p * b + t;
    QuotientOrder(a, r, b, t, p);
  }

  lemma QuotientOrder(a: int, r: nat, b: int, t: nat, p: nat)
    requires r < p && t < p
    ensures CompareInt(p * a + r, p * b + t) == Then(CompareInt(a, b), CompareInt(r, t))
  {
    if a < b { MulStep(p, a, b); }
    if b < a { MulStep(p, b, a); }
  }

  lemma {:induction false} BigEndianRoundTrip(v: nat, n: nat)
    requires v < Pow256(n)
    ensures FromBigEndian(BigEndian(v, n)) == v
    decreases n
  {
    if n > 0 {
      var p := Pow256(n - 1);
      Digit(v, n);
      var b := BigEndian(v, n);
      assert b[0] == v / p && b[1..] == BigEndian(v % p, n - 1);
      BigEndianRoundTrip(v % p, n - 1);
    }
  }

  lemma {:induction false} FromBigEndianCanonical(b: Bytes)
    ensures FromBigEndian(b) < Pow256(|b|)
    ensures BigEndian(FromBigEndian(b), |b|) == b
  {
    if b != [] {
      FromBigEndianCanonical(b[1..]);
      var d, p, r := b[0], Pow256(|b| - 1), FromBigEndian(b[1..]);
      DigitFits(d, r, p);
      DivMod(d, r, p);
      assert b == [d] + b[1..];
    }
  }

  lemma DigitFits(d: Byte, r: nat, p: nat)
    requires r < p
    ensures d * p + r < 256 * p
  {
    MulStep(p, d, 256);
  }

  lemma DivMod(d: nat, r: nat, p: nat)
    requires r < p
    ensures (d * p + r) / p == d && (d * p + r) % p == r
  {
    var v := d * p + r;
    var a, t := v / p, v % p;
    assert v == p * a + t;
    QuotientOrder(a, t, d, r, p);
  }
}
