/** Decoding an authenticator seed (src/browser/secret-refs.ts, base32Bytes) and the one-time code
    made from a digest (totpCode, without the HMAC). JavaScript's 32-bit shifts are written out on
    integers. */
module Base32 {
  import opened Wrappers
  import opened Numbers
  import opened Strings

  const ALPHABET := "ABCDEFGHIJKLMNOPQRSTUVWXYZ234567"

  type Byte = x: int | 0 <= x < 256

  datatype DecodeError = NotBase32

  // ---- cleaning ----

  /** Upper case, as far as it can yield characters of the alphabet. */
  function Upper(c: char): string {
    var n := c as int;
    if 'a' <= c <= 'z' then [(n - 32) as char]
    else if n == 0x131 then "I"
    else if n == 0x17f then "S"
    else if n == 0xdf then "SS"
    else if n == 0xfb00 then "FF"
    else if n == 0xfb01 then "FI"
    else if n == 0xfb02 then "FL"
    else if n == 0xfb03 then "FFI"
    else if n == 0xfb04 then "FFL"
    else if n == 0xfb05 || n == 0xfb06 then "ST"
    else [c]
  }

  /** Characters a seed may contain anywhere: white space, padding and hyphens. */
  predicate Ignored(c: char) {
    Space(c) || c == '=' || c == '-'
  }

  function Keep(s: string): string {
    if s == "" then "" else (if Ignored(s[0]) then "" else [s[0]]) + Keep(s[1..])
  }

  function Clean(seed: string): string {
    if seed == "" then "" else Keep(Upper(seed[0])) + Clean(seed[1..])
  }

  // ---- 32-bit arithmetic ----

  const TWO32 := 0x1_0000_0000

  /** ToInt32: the signed 32-bit integer congruent to n. */
  function Int32(n: int): (r: int)
    ensures -0x8000_0000 <= r < 0x8000_0000 && (r - n) % TWO32 == 0
  {
    var low := n % TWO32;
    if low >= 0x8000_0000 then low - TWO32 else low
  }

  /** (accumulator << 5) | index: the shift leaves five zero bits, so the or adds. */
  function ShiftIn(accumulator: int, index: nat): int {
    Int32(accumulator * 32) + index
  }

  /** (accumulator >> bits) & 0xff: an arithmetic shift rounds down. */
  function TopByte(accumulator: int, bits: nat): Byte {
    var p := Power2(bits);
    (accumulator / p) % 256
  }

  // ---- bits ----

  type Bit = x: int | 0 <= x < 2

  function Value(bits: seq<Bit>): nat {
    if bits == [] then 0 else 2 * Value(bits[..|bits| - 1]) + bits[|bits| - 1]
  }

  /** The low n bits of v, most significant first. */
  function BitsOf(v: nat, n: nat): (bits: seq<Bit>)
    ensures |bits| == n
  {
    if n == 0 then [] else BitsOf(v / 2, n - 1) + [v % 2]
  }

  function IndexOf(c: char, from: nat): Option<nat>
    requires from <= |ALPHABET|
    decreases |ALPHABET| - from
  {
    if from == |ALPHABET| then None else if ALPHABET[from] == c then Some(from) else IndexOf(c, from + 1)
  }

  /** The alphabet in closed form: 26 letters, then the digits from 2 to 7. */
  function Symbol(v: nat): char
    requires v < 32
  {
    if v < 26 then ('A' as int + v) as char else ('2' as int + v - 26) as char
  }

  function Index(c: char): Option<nat> {
    if 'A' <= c <= 'Z' then Some(c as int - 'A' as int)
    else if '2' <= c <= '7' then Some(c as int - '2' as int + 26)
    else None
  }

  predicate InAlphabet(s: string) {
    forall i | 0 <= i < |s| :: Index(s[i]).Some?
  }

  function Digit(c: char): nat {
    if Index(c).Some? then Index(c).value else 0
  }

  /** The bits that a string of digits stands for, five a digit. */
  function BitString(s: string): (bits: seq<Bit>)
    ensures |bits| == 5 * |s|
  {
    if s == "" then [] else BitString(s[..|s| - 1]) + BitsOf(Digit(s[|s| - 1]), 5)
  }

  /** The whole bytes in a bit string; up to seven bits are left over. */
  function Bytes(bits: seq<Bit>): seq<nat> {
    seq(|bits| / 8, i requires 0 <= i < |bits| / 8 => Value(bits[8 * i..8 * i + 8]))
  }

  // ---- values of bits ----

  lemma {:induction false} ValueBound(bits: seq<Bit>)
    ensures Value(bits) < Power2(|bits|)
  {
    if bits != [] { ValueBound(bits[..|bits| - 1]); }
  }

  lemma FiveBits(bits: seq<Bit>)
    requires |bits| == 5
    ensures Value(bits) < 32
  {
    ValueBound(bits);
    assert Power2(5) == 32;
  }

  lemma Doubled(v: nat, p: nat)
    ensures v * (2 * p) == 2 * (v * p)
  {}

  lemma {:induction false} ValueAppends(a: seq<Bit>, b: seq<Bit>)
    ensures Value(a + b) == Value(a) * Power2(|b|) + Value(b)
  {
    if b == [] {
      assert a + b == a;
    } else {
      var n := |b| - 1;
      ValueAppends(a, b[..n]);
      assert (a + b)[..|a| + n] == a + b[..n];
      assert Value(a + b) == 2 * Value(a + b[..n]) + b[n];
      Doubled(Value(a), Power2(n));
    }
  }

  lemma {:induction false} ValueOfBits(v: nat, n: nat)
    requires v < Power2(n)
    ensures Value(BitsOf(v, n)) == v
  {
    if n > 0 {
      ValueOfBits(v / 2, n - 1);
      assert BitsOf(v, n)[..n - 1] == BitsOf(v / 2, n - 1);
    }
  }

  lemma {:induction false} BitsOfValue(bits: seq<Bit>)
    ensures BitsOf(Value(bits), |bits|) == bits
  {
    if bits != [] {
      var n := |bits| - 1;
      BitsOfValue(bits[..n]);
      assert Value(bits) / 2 == Value(bits[..n]) && Value(bits) % 2 == bits[n];
    }
  }

  // ---- the loop ----

  /** What base32Bytes computes. */
  function Decode(seed: string): Result<seq<nat>, DecodeError> {
    if InAlphabet(Clean(seed)) then Ok(Bytes(BitString(Clean(seed)))) else Err(NotBase32)
  }

  lemma AlphabetTable(k: nat)
    requires k < 32
    ensures |ALPHABET| == 32 && ALPHABET[k] == Symbol(k) && Index(Symbol(k)) == Some(k)
  {
    assert ALPHABET[k] as int == if k < 26 then 65 + k else 24 + k;
  }

  /** Searching the alphabet gives the closed form. */
  lemma SearchIsIndex(c: char)
    ensures IndexOf(c, 0) == Index(c)
  {
    IndexIsFound(c, 0);
    var i := IndexOf(c, 0);
    if i.Some? {
      AlphabetTable(i.value);
    } else if Index(c).Some? {
      AlphabetTable(Index(c).value);
    }
  }

  lemma {:induction false} IndexIsFound(c: char, from: nat)
    requires from <= |ALPHABET|
    ensures var i := IndexOf(c, from);
            if i.Some? then from <= i.value < 32 && ALPHABET[i.value] == c
            else forall k | from <= k < |ALPHABET| :: ALPHABET[k] != c
    decreases |ALPHABET| - from
  {
    if from < |ALPHABET| && ALPHABET[from] != c { IndexIsFound(c, from + 1); }
  }

  /** Congruent modulo 2^32. */
  predicate Same32(a: int, b: int) {
    (a - b) % TWO32 == 0
  }

  lemma Same32Scales(a: int, b: int, k: int, c: int)
    requires Same32(a, b)
    ensures Same32(a * k + c, b * k + c)
  {
    var q := (a - b) / TWO32;
    assert a - b == q * TWO32;
    assert (a * k + c) - (b * k + c) == (q * k) * TWO32 + 0;
    Quotient((q * k) * TWO32, q * k, 0, TWO32);
  }

  lemma BoundProduct(x: int, p: int)
    requires p > 0
    ensures x >= 1 ==> x * p >= p
    ensures x <= -1 ==> x * p <= -p
  {}

  lemma Quotient(n: int, q: int, r: int, p: int)
    requires p > 0 && n == q * p + r && 0 <= r < p
    ensures n / p == q && n % p == r
  {
    var d := n / p;
    assert n == d * p + n % p;
    assert (q - d) * p == n % p - r;
    BoundProduct(q - d, p);
  }

  /** The accumulator holds the bits so far modulo 2^32: it is never masked, and wraps. */
  lemma ShiftInKeeps(accumulator: int, bits: seq<Bit>, index: nat)
    requires Same32(accumulator, Value(bits)) && index < 32
    ensures Same32(ShiftIn(accumulator, index), Value(bits + BitsOf(index, 5)))
  {
    ValueAppends(bits, BitsOf(index, 5));
    assert Power2(5) == 32;
    ValueOfBits(index, 5);
    Same32Scales(accumulator, Value(bits), 32, index);
    var shifted := Int32(accumulator * 32);
    assert Same32(shifted, accumulator * 32);
    Same32Chains(shifted + index, accumulator * 32 + index, Value(bits) * 32 + index);
  }

  lemma Same32Chains(a: int, b: int, c: int)
    requires Same32(a, b) && Same32(b, c)
    ensures Same32(a, c)
  {}

  lemma DivideAdds(b: int, k: int, p: int)
    requires p > 0
    ensures (b + k * p) / p == b / p + k && (b + k * p) % p == b % p
  {
    assert b + k * p == (b / p + k) * p + b % p;
    Quotient(b + k * p, b / p + k, b % p, p);
  }

  lemma WrapIsHigh(b: int, q: int, p: int, s: int)
    requires p > 0 && s * 256 * p == TWO32
    ensures ((b + q * TWO32) / p) % 256 == (b / p) % 256
  {
    var k := q * s * 256;
    assert q * TWO32 == k * p;
    DivideAdds(b, k, p);
    DivideAdds(b / p, q * s, 256);
  }

  /** Dividing by a power of two no greater than 2^7 and keeping eight bits sees only the low fifteen
      bits, which the wrap does not touch. */
  lemma TopByteIgnoresTheWrap(a: int, b: int, bits: nat)
    requires Same32(a, b) && bits <= 7
    ensures TopByte(a, bits) == TopByte(b, bits)
  {
    var q := (a - b) / TWO32;
    assert a == b + q * TWO32;
    SmallPowers(bits);
    var p := Power2(bits);
    if p == 1 { WrapIsHigh(b, q, p, 0x100_0000); }
    else if p == 2 { WrapIsHigh(b, q, p, 0x80_0000); }
    else if p == 4 { WrapIsHigh(b, q, p, 0x40_0000); }
    else if p == 8 { WrapIsHigh(b, q, p, 0x20_0000); }
    else if p == 16 { WrapIsHigh(b, q, p, 0x10_0000); }
    else if p == 32 { WrapIsHigh(b, q, p, 0x8_0000); }
    else if p == 64 { WrapIsHigh(b, q, p, 0x4_0000); }
    else { WrapIsHigh(b, q, p, 0x2_0000); }
  }

  lemma SmallPowers(n: nat)
    requires n <= 7
    ensures Power2(n) in {1, 2, 4, 8, 16, 32, 64, 128}
  {
    if n > 0 { SmallPowers(n - 1); }
    assert n == 0 || n == 1 || n == 2 || n == 3 || n == 4 || n == 5 || n == 6 || n == 7;
  }

  /** Of a bit string, the byte above its last `left` bits. */
  lemma TopByteIsThoseBits(bits: seq<Bit>, left: nat)
    requires left <= 7 && |bits| >= left + 8
    ensures TopByte(Value(bits), left) == Value(bits[|bits| - left - 8..|bits| - left])
  {
    var n := |bits| - left;
    var head, byte, tail := bits[..n - 8], bits[n - 8..n], bits[n..];
    assert bits == (head + byte) + tail;
    HighBits(head + byte, tail);
    HighBits(head, byte);
    assert Power2(8) == 256;
  }

  /** Dividing by the weight of the last bits leaves the others. */
  lemma HighBits(high: seq<Bit>, low: seq<Bit>)
    ensures Value(high + low) / Power2(|low|) == Value(high)
    ensures Value(high + low) % Power2(|low|) == Value(low)
  {
    ValueAppends(high, low);
    ValueBound(low);
    Quotient(Value(high + low), Value(high), Value(low), Power2(|low|));
  }

  lemma BytesGrow(bits: seq<Bit>, more: seq<Bit>)
    requires |more| == 5
    ensures var all := bits + more;
            Bytes(all) == if |bits| % 8 >= 3 then Bytes(bits) + [Value(all[8 * (|bits| / 8)..8 * (|bits| / 8) + 8])]
                          else Bytes(bits)
  {
    var all, n := bits + more, |bits| / 8;
    assert |all| / 8 == if |bits| % 8 >= 3 then n + 1 else n;
    forall i | 0 <= i < n ensures all[8 * i..8 * i + 8] == bits[8 * i..8 * i + 8] {}
  }

  /** The variables of the loop. */
  datatype Reader = Reader(bits: nat, accumulator: int, bytes: seq<nat>)

  /** One turn of the loop: five bits more, and a byte once there are eight. */
  function ReadDigit(r: Reader, index: nat): Reader {
    var next := ShiftIn(r.accumulator, index);
    if r.bits + 5 >= 8 then Reader(r.bits - 3, next, r.bytes + [TopByte(next, r.bits - 3)])
    else Reader(r.bits + 5, next, r.bytes)
  }

  function ReadAll(s: string): Reader {
    if s == "" then Reader(0, 0, []) else ReadDigit(ReadAll(s[..|s| - 1]), Digit(s[|s| - 1]))
  }

  /** The loop has read these bits. */
  ghost predicate Holds(all: seq<Bit>, r: Reader) {
    r.bits == |all| % 8 && Same32(r.accumulator, Value(all)) && r.bytes == Bytes(all)
  }

  lemma ReadDigitHolds(all: seq<Bit>, r: Reader, index: nat)
    requires Holds(all, r) && index < 32
    ensures Holds(all + BitsOf(index, 5), ReadDigit(r, index))
  {
    var more, next := BitsOf(index, 5), ShiftIn(r.accumulator, index);
    ShiftInKeeps(r.accumulator, all, index);
    BytesGrow(all, more);
    if r.bits + 5 >= 8 { NextByte(all, more, |all| / 8, r.bits - 3, next); }
    LengthsAfter(|all|, |all + more|);
  }

  lemma LengthsAfter(n: nat, m: nat)
    requires m == n + 5
    ensures m % 8 == if n % 8 + 5 >= 8 then n % 8 - 3 else n % 8 + 5
  {}

  /** The byte that comes out when there are bits enough. */
  lemma NextByte(before: seq<Bit>, more: seq<Bit>, n: nat, left: nat, accumulator: int)
    requires |more| == 5 && |before| == 8 * n + left + 3 && left <= 4
    requires Same32(accumulator, Value(before + more))
    ensures Value((before + more)[8 * n..8 * n + 8]) == TopByte(accumulator, left)
  {
    var all := before + more;
    TopByteIgnoresTheWrap(accumulator, Value(all), left);
    TopByteIsThoseBits(all, left);
    assert |all| - left == 8 * n + 8;
  }

  lemma {:induction false} ReadAllHolds(s: string)
    ensures Holds(BitString(s), ReadAll(s))
  {
    if s != "" {
      ReadAllHolds(s[..|s| - 1]);
      ReadDigitHolds(BitString(s[..|s| - 1]), ReadAll(s[..|s| - 1]), Digit(s[|s| - 1]));
    }
  }

  lemma ReadAllDecodes(seed: string)
    ensures InAlphabet(Clean(seed)) ==> Decode(seed) == Ok(ReadAll(Clean(seed)).bytes)
  {
    ReadAllHolds(Clean(seed));
  }

  lemma RefusesOne(s: string, i: nat)
    requires i < |s| && Index(s[i]).None?
    ensures !InAlphabet(s)
  {}

  method Base32Bytes(seed: string) returns (r: Result<seq<nat>, DecodeError>)
    ensures r == Decode(seed)
  {
    var clean := Clean(seed);
    var bits, accumulator := 0, 0;
    var bytes: seq<nat> := [];
    for i := 0 to |clean|
      invariant bits >= 0 && InAlphabet(clean[..i]) && Reader(bits, accumulator, bytes) == ReadAll(clean[..i])
    {
      assert clean[..i + 1] == clean[..i] + [clean[i]];
      var found := IndexOf(clean[i], 0);
      SearchIsIndex(clean[i]);
      if found.None? {
        RefusesOne(clean, i);
        return Err(NotBase32);
      }
      accumulator := ShiftIn(accumulator, found.value);
      bits := bits + 5;
      if bits >= 8 {
        bits := bits - 8;
        bytes := bytes + [TopByte(accumulator, bits)];
      }
    }
    assert clean[..|clean|] == clean;
    ReadAllDecodes(seed);
    return Ok(bytes);
  }

  // ---- encoding ----

  function ByteBits(bytes: seq<Byte>): (bits: seq<Bit>)
    ensures |bits| == 8 * |bytes|
  {
    if bytes == [] then [] else ByteBits(bytes[..|bytes| - 1]) + BitsOf(bytes[|bytes| - 1], 8)
  }

  /** Zero bits up to a whole number of digits. */
  function Padded(bits: seq<Bit>): (r: seq<Bit>)
    ensures |r| % 5 == 0 && |bits| <= |r| < |bits| + 5 && r[..|bits|] == bits
  {
    bits + seq((5 - |bits| % 5) % 5, i requires 0 <= i < (5 - |bits| % 5) % 5 => 0)
  }

  function Digits5(bits: seq<Bit>): (s: string)
    requires |bits| % 5 == 0
    ensures |s| == |bits| / 5
  {
    if bits == [] then ""
    else
      var last := bits[|bits| - 5..];
      FiveBits(last);
      Digits5(bits[..|bits| - 5]) + [Symbol(Value(last))]
  }

  /** Section 6 of RFC 4648, without the padding characters. */
  function Encode(bytes: seq<Byte>): string {
    Digits5(Padded(ByteBits(bytes)))
  }

  /** Five bits and their digit. */
  lemma DigitRoundTrip(bits: seq<Bit>)
    requires |bits| == 5
    ensures Value(bits) < 32 && BitsOf(Digit(Symbol(Value(bits))), 5) == bits
  {
    FiveBits(bits);
    AlphabetTable(Value(bits));
    BitsOfValue(bits);
  }

  lemma {:induction false} DigitsRoundTrip(bits: seq<Bit>)
    requires |bits| % 5 == 0
    ensures InAlphabet(Digits5(bits)) && BitString(Digits5(bits)) == bits
  {
    if bits != [] {
      var n := |bits| - 5;
      var front, last := bits[..n], bits[n..];
      assert bits == front + last;
      DigitsRoundTrip(front);
      DigitRoundTrip(last);
      var s, c := Digits5(front), Symbol(Value(last));
      DigitsGrow(bits);
      BitStringGrows(s, c);
      AlphabetGrows(s, c);
    }
  }

  lemma DigitsGrow(bits: seq<Bit>)
    requires |bits| % 5 == 0 && bits != []
    ensures Value(bits[|bits| - 5..]) < 32
    ensures Digits5(bits) == Digits5(bits[..|bits| - 5]) + [Symbol(Value(bits[|bits| - 5..]))]
  {
    FiveBits(bits[|bits| - 5..]);
  }

  lemma AlphabetGrows(s: string, c: char)
    requires InAlphabet(s) && Index(c).Some?
    ensures InAlphabet(s + [c])
  {}

  lemma BitStringGrows(s: string, c: char)
    ensures BitString(s + [c]) == BitString(s) + BitsOf(Digit(c), 5)
  {
    assert (s + [c])[..|s|] == s;
  }

  lemma {:induction false} ByteAt(bytes: seq<Byte>, i: nat)
    requires i < |bytes|
    ensures ByteBits(bytes)[8 * i..8 * i + 8] == BitsOf(bytes[i], 8)
  {
    var n := |bytes| - 1;
    var front, last := ByteBits(bytes[..n]), BitsOf(bytes[n], 8);
    if i < n {
      ByteAt(bytes[..n], i);
      assert (front + last)[8 * i..8 * i + 8] == front[8 * i..8 * i + 8];
    } else {
      assert (front + last)[8 * n..8 * n + 8] == last;
    }
  }

  lemma PaddedBytes(bytes: seq<Byte>)
    ensures Bytes(Padded(ByteBits(bytes))) == bytes
  {
    var bits := ByteBits(bytes);
    var padded := Padded(bits);
    assert |padded| / 8 == |bytes|;
    forall i | 0 <= i < |bytes| ensures Value(padded[8 * i..8 * i + 8]) == bytes[i] {
      ByteAt(bytes, i);
      assert padded[8 * i..8 * i + 8] == padded[..|bits|][8 * i..8 * i + 8] == bits[8 * i..8 * i + 8];
      assert Power2(8) == 256;
      ValueOfBits(bytes[i], 8);
    }
  }

  // ---- decorations ----

  /** s is e with letters in either case and ignored characters anywhere. */
  ghost predicate Decorates(s: string, e: string)
    decreases |s|
  {
    if s == "" then e == ""
    else (Ignored(s[0]) && Decorates(s[1..], e))
         || (e != "" && (s[0] == e[0] || (s[0] as int == e[0] as int + 32 && 'A' <= e[0] <= 'Z'))
             && Decorates(s[1..], e[1..]))
  }

  lemma AlphabetIsNotIgnored(c: char)
    requires Index(c).Some?
    ensures !Ignored(c) && Upper(c) == [c]
  {}

  lemma KeepOne(c: char)
    ensures Keep([c]) == if Ignored(c) then "" else [c]
  {
    assert [c][1..] == "";
  }

  lemma CleanOne(c: char, d: char)
    requires Index(d).Some? && (c == d || (c as int == d as int + 32 && 'A' <= d <= 'Z'))
    ensures Keep(Upper(c)) == [d] && !Ignored(d)
  {
    AlphabetIsNotIgnored(d);
    KeepOne(d);
    assert Upper(c) == [d];
  }

  lemma CleanIgnored(c: char)
    requires Ignored(c)
    ensures Keep(Upper(c)) == ""
  {
    assert Upper(c) == [c];
    KeepOne(c);
  }

  lemma {:induction false} CleanUndecorates(s: string, e: string)
    requires InAlphabet(e) && Decorates(s, e)
    ensures Clean(s) == e
    decreases |s|
  {
    if s != "" {
      if Ignored(s[0]) && Decorates(s[1..], e) {
        CleanUndecorates(s[1..], e);
        CleanIgnored(s[0]);
      } else {
        CleanUndecorates(s[1..], e[1..]);
        CleanOne(s[0], e[0]);
        assert [e[0]] + e[1..] == e;
      }
    }
  }

  /** Decoding undoes the encoding for every byte string, padded or not, in either letter case, with
      white space, hyphens or padding anywhere. */
  lemma DecodeUndoesEncode(bytes: seq<Byte>, seed: string)
    ensures Decorates(seed, Encode(bytes)) ==> Decode(seed) == Ok(bytes)
  {
    if Decorates(seed, Encode(bytes)) {
      var padded := Padded(ByteBits(bytes));
      DigitsRoundTrip(padded);
      CleanUndecorates(seed, Encode(bytes));
      PaddedBytes(bytes);
    }
  }

  // ---- one-time codes ----

  function Power10(n: nat): (p: nat)
    ensures p >= 1
  {
    if n == 0 then 1 else 10 * Power10(n - 1)
  }

  function Decimal(n: nat, digits: nat): (s: string)
    ensures |s| == digits
  {
    if digits == 0 then "" else Decimal(n / 10, digits - 1) + [('0' as int + n % 10) as char]
  }

  function Read(digest: seq<Byte>, offset: nat): nat
    requires offset + 4 <= |digest|
  {
    digest[offset] as int * 0x100_0000 + digest[offset + 1] as int * 0x1_0000
    + digest[offset + 2] as int * 0x100 + digest[offset + 3] as int
  }

  /** Dynamic truncation (section 5.3 of RFC 4226) of an HMAC digest of at least 19 bytes. */
  function Truncated(digest: seq<Byte>): nat
    requires |digest| >= 19
  {
    Read(digest, digest[|digest| - 1] % 16) % 0x8000_0000
  }

  function Code(digest: seq<Byte>, digits: nat): string
    requires |digest| >= 19
  {
    Decimal(Truncated(digest) % Power10(digits), digits)
  }

  function Numeric(s: string): int {
    if s == "" then 0 else 10 * Numeric(s[..|s| - 1]) + (s[|s| - 1] as int - '0' as int)
  }

  lemma {:induction false} DecimalIsNumeric(n: nat, digits: nat)
    requires n < Power10(digits)
    ensures Numeric(Decimal(n, digits)) == n
  {
    if digits > 0 {
      var front, last := Decimal(n / 10, digits - 1), ('0' as int + n % 10) as char;
      DecimalIsNumeric(n / 10, digits - 1);
      assert Decimal(n, digits) == front + [last] && (front + [last])[..digits - 1] == front;
      assert last as int - '0' as int == n % 10;
      assert 10 * (n / 10) + n % 10 == n;
    }
  }

  /** The code has exactly the digits asked for, leading zeros included, and its value is the
      truncated digest modulo their power of ten. */
  lemma CodeIsExact(digest: seq<Byte>, digits: nat)
    requires |digest| >= 19
    ensures |Code(digest, digits)| == digits
    ensures Numeric(Code(digest, digits)) == Truncated(digest) % Power10(digits)
  {
    DecimalIsNumeric(Truncated(digest) % Power10(digits), digits);
  }
}
