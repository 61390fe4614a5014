/** Decoding a Stellar address: base32 characters are shifted into a 32-bit accumulator that is never
    masked, and bytes are taken from its low end. */
module StrKey {
  import opened Basics
  import opened Wrappers

  // ---------------------------------------------------------------------------
  // Bits
  // ---------------------------------------------------------------------------

  type Bits = seq<bool>

  /** The low n bits of a number, most significant first. */
  function BitsOf(v: nat, n: nat): (b: Bits)
    ensures |b| == n
  {
    if n == 0 then [] else BitsOf(v / 2, n - 1) + [v % 2 == 1]
  }

  function Number(b: Bits): nat {
    if b == [] then 0 else 2 * Number(b[..|b| - 1]) + if b[|b| - 1] then 1 else 0
  }

  lemma {:induction false} NumberBound(b: Bits)
    ensures Number(b) < Pow2(|b|)
  {
    if b != [] { NumberBound(b[..|b| - 1]); }
  }

  lemma {:induction false} NumberOfBits(v: nat, n: nat)
    requires v < Pow2(n)
    ensures Number(BitsOf(v, n)) == v
  {
    if n > 0 {
      NumberOfBits(v / 2, n - 1);
      assert BitsOf(v, n)[..n - 1] == BitsOf(v / 2, n - 1);
    }
  }

  lemma {:induction false} BitsOfNumber(b: Bits)
    ensures BitsOf(Number(b), |b|) == b
  {
    if b != [] {
      var front := b[..|b| - 1];
      BitsOfNumber(front);
      assert Number(b) / 2 == Number(front);
      assert b == front + [b[|b| - 1]];
    }
  }

  lemma NumberSnoc(front: Bits, x: bool)
    ensures Number(front + [x]) == 2 * Number(front) + if x then 1 else 0
  {
    assert (front + [x])[..|front|] == front;
  }

  lemma {:induction false} NumberConcat(a: Bits, b: Bits)
    ensures Number(a + b) == Number(a) * Pow2(|b|) + Number(b)
  {
    if b == [] {
      assert a + b == a;
    } else {
      var front, x := b[..|b| - 1], b[|b| - 1];
      assert b == front + [x] && a + b == (a + front) + [x];
      NumberConcat(a, front);
      NumberSnoc(front, x);
      NumberSnoc(a + front, x);
      Double(Number(a), Pow2(|front|));
    }
  }

  lemma Double(x: nat, p: nat)
    ensures 2 * (x * p) == x * (2 * p)
  {
  }

  lemma SmallPowers()
    ensures Pow2(0) == 1 && Pow2(1) == 2 && Pow2(2) == 4 && Pow2(3) == 8 && Pow2(4) == 16 && Pow2(5) == 32
    ensures Pow2(6) == 64 && Pow2(7) == 128 && Pow2(8) == 256 && Pow2(9) == 512 && Pow2(10) == 1024
    ensures Pow2(11) == 2048 && Pow2(12) == 4096
  {
    assert Pow2(4) == 16 && Pow2(8) == 256;
  }

  // ---------------------------------------------------------------------------
  // The format
  // ---------------------------------------------------------------------------

  type Byte = b: nat | b < 256

  /** The base32 alphabet of section 6 of RFC 4648: A to Z, then 2 to 7. */
  function IndexOf(c: char): Option<nat> {
    if 'A' <= c <= 'Z' then Some((c - 'A') as nat)
    else if '2' <= c <= '7' then Some(26 + (c - '2') as nat)
    else None
  }

  function CharOf(i: nat): (c: char)
    requires i < 32
    ensures IndexOf(c) == Some(i)
  {
    if i < 26 then 'A' + i as char else '2' + (i - 26) as char
  }

  lemma Alphabet(c: char, i: nat)
    requires i < 32
    ensures IndexOf(c) == Some(i) <==> c == "ABCDEFGHIJKLMNOPQRSTUVWXYZ234567"[i]
    ensures IndexOf(c).Some? ==> IndexOf(c).value < 32
  {
  }

  predicate InAlphabet(s: string) {
    forall i | 0 <= i < |s| :: IndexOf(s[i]).Some?
  }

  /** The five-bit groups of the characters, one after the other. */
  function Payload(s: string): (b: Bits)
    requires InAlphabet(s)
    ensures |b| == 5 * |s|
  {
    if s == "" then [] else Payload(s[..|s| - 1]) + BitsOf(IndexOf(s[|s| - 1]).value, 5)
  }

  /** The whole bytes of a string of bits; up to seven bits at the end are dropped. */
  function Bytes(b: Bits): (bytes: seq<Byte>)
    ensures |bytes| == |b| / 8
  {
    if |b| < 8 then []
    else
      NumberBound(b[..8]);
      [Number(b[..8])] + Bytes(b[8..])
  }

  function BitsOfBytes(bytes: seq<Byte>): (b: Bits)
    ensures |b| == 8 * |bytes|
  {
    if bytes == [] then [] else BitsOf(bytes[0], 8) + BitsOfBytes(bytes[1..])
  }

  /** Five bits to a character, the last group filled with zeros. */
  function Chars(b: Bits): string {
    if b == [] then ""
    else
      var group := if |b| < 5 then b + Repeat(false, 5 - |b|) else b[..5];
      NumberBound(group);
      assert Pow2(5) == 32;
      [CharOf(Number(group))] + if |b| < 5 then "" else Chars(b[5..])
  }

  /** Base32 without padding characters. */
  function Encode(bytes: seq<Byte>): string {
    Chars(BitsOfBytes(bytes))
  }

  lemma FirstByte(first: Bits, rest: Bits)
    requires |first| == 8
    ensures Number(first) < 256 && Bytes(first + rest) == [Number(first)] + Bytes(rest)
  {
    NumberBound(first);
    SmallPowers();
    assert (first + rest)[..8] == first && (first + rest)[8..] == rest;
  }

  lemma {:induction false} BytesConcat(a: Bits, b: Bits, k: nat)
    requires |a| == 8 * k
    ensures Bytes(a + b) == Bytes(a) + Bytes(b)
  {
    if a == [] {
      assert a + b == b;
    } else {
      var rest := a[8..];
      assert a == a[..8] + rest && a + b == a[..8] + (rest + b);
      BytesConcat(rest, b, k - 1);
      FirstByte(a[..8], rest);
      FirstByte(a[..8], rest + b);
    }
  }

  lemma {:induction false} PayloadCons(c: char, s: string)
    requires IndexOf(c).Some? && InAlphabet(s)
    ensures InAlphabet([c] + s) && Payload([c] + s) == BitsOf(IndexOf(c).value, 5) + Payload(s)
  {
    var t := [c] + s;
    assert InAlphabet(t);
    if s == "" {
      assert t[..0] == "" && t[0] == c;
    } else {
      var front := s[..|s| - 1];
      PayloadCons(c, front);
      assert t[..|t| - 1] == [c] + front && t[|t| - 1] == s[|s| - 1];
    }
  }

  lemma GroupChar(group: Bits, rest: string)
    requires |group| == 5 && InAlphabet(rest)
    ensures Number(group) < 32
    ensures var t := [CharOf(Number(group))] + rest; InAlphabet(t) && Payload(t) == group + Payload(rest)
  {
    NumberBound(group);
    SmallPowers();
    BitsOfNumber(group);
    PayloadCons(CharOf(Number(group)), rest);
  }

  lemma FirstChar(b: Bits)
    requires |b| >= 5
    ensures Number(b[..5]) < 32 && Chars(b) == [CharOf(Number(b[..5]))] + Chars(b[5..])
  {
    NumberBound(b[..5]);
    SmallPowers();
  }

  lemma LastChar(b: Bits)
    requires 0 < |b| < 5
    ensures var group := b + Repeat(false, 5 - |b|); Number(group) < 32 && Chars(b) == [CharOf(Number(group))] + ""
  {
    NumberBound(b + Repeat(false, 5 - |b|));
    SmallPowers();
  }

  lemma ShortPayload(b: Bits)
    requires 0 < |b| < 5
    ensures InAlphabet(Chars(b)) && Payload(Chars(b)) == b + Repeat(false, 5 - |b|)
  {
    var group := b + Repeat(false, 5 - |b|);
    LastChar(b);
    GroupChar(group, "");
    assert [CharOf(Number(group))] + "" == Chars(b);
    assert Payload("") == [];
  }

  lemma {:induction false} PayloadOfChars(b: Bits) returns (fill: nat)
    ensures fill < 5 && InAlphabet(Chars(b)) && Payload(Chars(b)) == b + Repeat(false, fill)
  {
    if b == [] {
      fill := 0;
      assert b + Repeat(false, 0) == [];
    } else if |b| < 5 {
      fill := 5 - |b|;
      ShortPayload(b);
    } else {
      fill := PayloadOfChars(b[5..]);
      FirstChar(b);
      GroupChar(b[..5], Chars(b[5..]));
      assert b + Repeat(false, fill) == b[..5] + (b[5..] + Repeat(false, fill));
    }
  }

  lemma ByteOfBits(byte: Byte, rest: Bits)
    ensures Bytes(BitsOf(byte, 8) + rest) == [byte] + Bytes(rest)
  {
    assert Pow2(8) == 256 by { SmallPowers(); }
    NumberOfBits(byte, 8);
    FirstByte(BitsOf(byte, 8), rest);
  }

  lemma {:induction false} BytesOfBits(bytes: seq<Byte>, rest: Bits)
    requires |rest| < 8
    ensures Bytes(BitsOfBytes(bytes) + rest) == bytes
  {
    if bytes == [] {
      assert BitsOfBytes(bytes) + rest == rest;
    } else {
      BytesOfBits(bytes[1..], rest);
      ByteOfBits(bytes[0], BitsOfBytes(bytes[1..]) + rest);
      assert BitsOfBytes(bytes) + rest == BitsOf(bytes[0], 8) + (BitsOfBytes(bytes[1..]) + rest);
    }
  }

  /** Decoding the encoding of any bytes gives them back. */
  lemma RoundTrip(bytes: seq<Byte>)
    ensures InAlphabet(Encode(bytes))
    ensures Bytes(Payload(Encode(bytes))) == bytes
  {
    var fill := PayloadOfChars(BitsOfBytes(bytes));
    BytesOfBits(bytes, Repeat(false, fill));
  }

  // ---------------------------------------------------------------------------
  // The accumulator
  // ---------------------------------------------------------------------------

  /** Conversions of the language between its signed and unsigned 32-bit numbers. */
  function ToUint32(v: int): nat {
    v % 0x1_0000_0000
  }

  function ToInt32(v: int): int {
    var u := v % 0x1_0000_0000;
    if u >= 0x8000_0000 then u - 0x1_0000_0000 else u
  }

  /** (value << 5) | group: the shift leaves five zero bits, so the disjunction is a sum. */
  function ShiftIn(value: int, group: nat): int {
    ToInt32(32 * value) + group
  }

  /** (value >>> shift) & 0xff. */
  function ByteAt(value: int, shift: nat): Byte {
    ToUint32(value) / Pow2(shift) % 256
  }

  /** The low bits of the accumulator hold exactly the bits not yet turned into bytes; whatever is above
      them does not matter. */
  predicate Holds(value: int, pending: Bits) {
    ToUint32(value) % Pow2(|pending|) == Number(pending)
  }

  /** Quotient and remainder are unique. */
  lemma ModUnique(a: int, m: int, k: int, r: int)
    requires 0 <= r < m && a == m * k + r
    ensures a / m == k && a % m == r
  {
    var q, x := a / m, a % m;
    assert a == m * q + x && 0 <= x < m;
    assert m * (q - k) == r - x && m * (k - q) == x - r;
    SmallProduct(m, q - k);
    SmallProduct(m, k - q);
  }

  lemma ShiftedUnsigned(value: int, group: nat)
    requires group < 32
    ensures ToUint32(ShiftIn(value, group)) == (32 * ToUint32(value) + group) % 0x1_0000_0000
  {
    var u, z := value % 0x1_0000_0000, value / 0x1_0000_0000;
    var shifted := (32 * value) / 0x1_0000_0000;
    var k := (32 * u + group) / 0x1_0000_0000;
    var wrap := if (32 * value) % 0x1_0000_0000 >= 0x8000_0000 then 1 else 0;
    ModUnique(ShiftIn(value, group), 0x1_0000_0000, 32 * z + k - shifted - wrap, (32 * u + group) % 0x1_0000_0000);
  }

  lemma ModStep(u: nat, u': nat, x: nat, p: nat, c: nat, group: nat)
    requires p >= 1 && 32 * p * c == 0x1_0000_0000 && group < 32
    requires u % p == x && u' == (32 * u + group) % 0x1_0000_0000
    ensures u' % (32 * p) == 32 * x + group
  {
    var q, w := u / p, (32 * u + group) / 0x1_0000_0000;
    assert u == p * q + x;
    calc {
      u';
      32 * (p * q + x) + group - 32 * p * c * w;
      { assert 32 * p * c * w == 32 * p * (c * w); }
      32 * p * (q - c * w) + (32 * x + group);
    }
    ModUnique(u', 32 * p, q - c * w, 32 * x + group);
  }

  lemma ShiftHolds(value: int, pending: Bits, group: nat)
    requires Holds(value, pending) && |pending| < 8 && group < 32
    ensures Holds(ShiftIn(value, group), pending + BitsOf(group, 5))
  {
    var c := ComplementPower(|pending|);
    ShiftedUnsigned(value, group);
    ModStep(ToUint32(value), ToUint32(ShiftIn(value, group)), Number(pending), Pow2(|pending|), c, group);
    GroupNumber(pending, group);
  }

  lemma GroupNumber(pending: Bits, group: nat)
    requires group < 32
    ensures Number(pending + BitsOf(group, 5)) == 32 * Number(pending) + group
  {
    SmallPowers();
    NumberOfBits(group, 5);
    NumberConcat(pending, BitsOf(group, 5));
  }

  lemma ComplementPower(n: nat) returns (c: nat)
    requires n < 8
    ensures 32 * Pow2(n) * c == 0x1_0000_0000
    ensures Pow2(n + 5) == 32 * Pow2(n)
  {
    SmallPowers();
    c := [0x800_0000, 0x400_0000, 0x200_0000, 0x100_0000, 0x80_0000, 0x40_0000, 0x20_0000, 0x10_0000][n];
  }

  lemma DivStep(u: nat, hi: nat, lo: nat, p: nat)
    requires hi < 256 && lo < p
    requires u % (256 * p) == hi * p + lo
    ensures u / p % 256 == hi && u % p == lo
  {
    var w := u / (256 * p);
    assert u == 256 * p * w + (hi * p + lo);
    assert 256 * p * w == p * (256 * w);
    assert u == p * (256 * w + hi) + lo;
    ModUnique(u, p, 256 * w + hi, lo);
    ModUnique(256 * w + hi, 256, w, hi);
  }

  lemma TakeByte(value: int, pending: Bits)
    requires Holds(value, pending) && 8 <= |pending| < 13
    ensures ByteAt(value, |pending| - 8) == Number(pending[..8])
    ensures Holds(value, pending[8..])
  {
    var high, low := pending[..8], pending[8..];
    assert pending == high + low;
    NumberConcat(high, low);
    NumberBound(high);
    NumberBound(low);
    SmallPowers();
    assert Pow2(|pending|) == 256 * Pow2(|low|);
    DivStep(ToUint32(value), Number(high), Number(low), Pow2(|low|));
  }

  lemma WholeBytes(done: Bits, pending: Bits, k: nat)
    requires |done| == 8 * k && |pending| < 8
    ensures Bytes(done + pending) == Bytes(done)
  {
    BytesConcat(done, pending, k);
  }

  lemma OneMoreByte(done: Bits, held: Bits, k: nat)
    requires |done| == 8 * k && 8 <= |held| < 16
    ensures Number(held[..8]) < 256 && Bytes(done + held[..8]) == Bytes(done) + [Number(held[..8])]
  {
    var first := held[..8];
    BytesConcat(done, first, k);
    FirstByte(first, []);
    assert first + [] == first;
  }

  /** The bits of the characters read are those turned into bytes, then those still held. */
  ghost predicate Spelled(read: string, decoded: seq<Byte>, done: Bits, pending: Bits) {
    && InAlphabet(read) && Payload(read) == done + pending
    && decoded == Bytes(done) && |done| == 8 * |decoded|
  }

  ghost predicate Decoding(read: string, decoded: seq<Byte>, value: int, done: Bits, pending: Bits) {
    Spelled(read, decoded, done, pending) && Holds(value, pending)
  }

  lemma ReadCharacter(read: string, c: char, decoded: seq<Byte>, value: int, done: Bits, pending: Bits)
    requires Decoding(read, decoded, value, done, pending) && |pending| < 8 && IndexOf(c).Some?
    ensures var group := IndexOf(c).value;
            Decoding(read + [c], decoded, ShiftIn(value, group), done, pending + BitsOf(group, 5))
  {
    var group := BitsOf(IndexOf(c).value, 5);
    ShiftHolds(value, pending, IndexOf(c).value);
    assert (read + [c])[..|read|] == read;
    assert (done + pending) + group == done + (pending + group);
  }

  lemma SpellByte(read: string, decoded: seq<Byte>, done: Bits, pending: Bits, x: Byte)
    requires Spelled(read, decoded, done, pending) && 8 <= |pending| < 13 && x == Number(pending[..8])
    ensures Spelled(read, decoded + [x], done + pending[..8], pending[8..])
  {
    OneMoreByte(done, pending, |decoded|);
    assert done + pending == (done + pending[..8]) + pending[8..];
  }

  lemma EmitByte(read: string, decoded: seq<Byte>, value: int, done: Bits, pending: Bits)
    requires Decoding(read, decoded, value, done, pending) && 8 <= |pending| < 13
    ensures Decoding(read, decoded + [ByteAt(value, |pending| - 8)], value, done + pending[..8], pending[8..])
  {
    TakeByte(value, pending);
    SpellByte(read, decoded, done, pending, ByteAt(value, |pending| - 8));
  }

  /** One round of the decoder: a character is shifted in and, if that makes eight bits, a byte is taken. */
  lemma NextCharacter(s: string, i: nat, decoded: seq<Byte>, value: int, done: Bits, pending: Bits)
    requires i < |s| && IndexOf(s[i]).Some? && |pending| < 8 && Decoding(s[..i], decoded, value, done, pending)
    ensures var group := IndexOf(s[i]).value;
            var value', held := ShiftIn(value, group), pending + BitsOf(group, 5);
            if |held| >= 8 then
              Decoding(s[..i + 1], decoded + [ByteAt(value', |held| - 8)], value', done + held[..8], held[8..])
            else Decoding(s[..i + 1], decoded, value', done, held)
  {
    var group := IndexOf(s[i]).value;
    ReadCharacter(s[..i], s[i], decoded, value, done, pending);
    assert s[..i] + [s[i]] == s[..i + 1];
    if |pending| + 5 >= 8 {
      EmitByte(s[..i + 1], decoded, ShiftIn(value, group), done, pending + BitsOf(group, 5));
    }
  }

  /** At the end of the string all whole bytes have been emitted; 35 of them take 56 characters. */
  lemma AllRead(s: string, decoded: seq<Byte>, done: Bits, pending: Bits)
    requires Spelled(s, decoded, done, pending) && |pending| < 8
    ensures InAlphabet(s) && decoded == Bytes(Payload(s)) && (|decoded| >= 35 <==> |s| >= 56)
  {
    WholeBytes(done, pending, |decoded|);
    assert 8 * |decoded| + |pending| == 5 * |s|;
  }

  /** The decoder: nothing unless every character is in the alphabet and there are at least 35 bytes, and
      then bytes 1 to 32, between the version byte and the checksum. */
  method DecodeStrKey(s: string) returns (r: Option<seq<Byte>>)
    ensures r.Some? <==> InAlphabet(s) && |s| >= 56
    ensures r.Some? ==> |r.value| == 32 && r.value == Bytes(Payload(s))[1..33]
  {
    var decoded: seq<Byte> := [];
    var bits, value := 0, 0;
    ghost var done: Bits, pending: Bits := [], [];
    for i := 0 to |s|
      invariant Decoding(s[..i], decoded, value, done, pending)
      invariant bits == |pending| < 8
    {
      var index := IndexOf(s[i]);
      if index.None? { return None; }
      NextCharacter(s, i, decoded, value, done, pending);
      pending := pending + BitsOf(index.value, 5);
      value := ShiftIn(value, index.value);
      bits := bits + 5;
      if bits >= 8 {
        decoded := decoded + [ByteAt(value, bits - 8)];
        bits := bits - 8;
        done, pending := done + pending[..8], pending[8..];
      }
    }
    assert s[..|s|] == s;
    AllRead(s, decoded, done, pending);
    if |decoded| < 35 { return None; }
    return Some(decoded[1..33]);
  }

  /** The address of any 35 bytes (version, key, checksum) has 56 characters and decodes to the key. */
  method DecodeEncoded(bytes: seq<Byte>) returns (r: Option<seq<Byte>>)
    requires |bytes| == 35
    ensures r == Some(bytes[1..33])
  {
    RoundTrip(bytes);
    r := DecodeStrKey(Encode(bytes));
  }
}
