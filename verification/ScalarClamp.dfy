/** The clamping of a Curve25519 secret scalar derived from a signing key's digest. */
module ScalarClamp {

  function Pow2(n: nat): (p: nat)
    ensures p >= 1
  {
    if n == 0 then 1 else 2 * Pow2(n - 1)
  }

  function Digits(bytes: seq<bv8>): (digits: seq<nat>)
    ensures |digits| == |bytes|
  {
    seq(|bytes|, i requires 0 <= i < |bytes| => bytes[i] as nat)
  }

  function Value(digits: seq<nat>): nat {
    if digits == [] then 0 else digits[0] + 256 * Value(digits[1..])
  }

  /** The bytes read as a little-endian integer. */
  function LittleEndian(bytes: seq<bv8>): nat {
    Value(Digits(bytes))
  }

  const LOW_MASK: bv8 := 248
  const HIGH_MASK: bv8 := 127
  const HIGH_BIT: bv8 := 64

  function Clamped(bytes: seq<bv8>): seq<bv8>
    requires |bytes| == 32
  {
    bytes[0 := bytes[0] & LOW_MASK][31 := (bytes[31] & HIGH_MASK) | HIGH_BIT]
  }

  /** The masks applied in place to a copy of the digest's first half. */
  method SecretKeyFromDigest(digest: seq<bv8>) returns (key: array<bv8>)
    requires |digest| == 64
    ensures fresh(key) && key[..] == Clamped(digest[..32])
  {
    key := new bv8[32](i requires 0 <= i < 32 => digest[i]);
    key[0] := key[0] & LOW_MASK;
    key[31] := key[31] & HIGH_MASK;
    key[31] := key[31] | HIGH_BIT;
  }

  lemma LowByte(b: bv8)
    ensures (b & LOW_MASK) as nat == b as nat - b as nat % 8
  {
  }

  lemma HighByte(b: bv8)
    ensures ((b & HIGH_MASK) | HIGH_BIT) as nat == 64 + b as nat % 64
  {
  }

  lemma Distribute(x: int, y: int, z: int)
    ensures x * (y + z) == x * y + x * z
  {
  }

  lemma Associate(x: int, y: int, z: int)
    ensures x * (y * z) == (x * y) * z
  {
  }

  /** The weight of the digit at position `n`. */
  function Weight(n: nat): (w: nat)
    ensures w >= 1
  {
    if n == 0 then 1 else 256 * Weight(n - 1)
  }

  lemma {:induction false} WeightIsPow2(n: nat)
    ensures Weight(n) == Pow2(8 * n)
  {
    if n > 0 {
      WeightIsPow2(n - 1);
      Shift(8 * (n - 1));
    }
  }

  lemma {:induction false} ValueConcat(a: seq<nat>, b: seq<nat>)
    ensures Value(a + b) == Value(a) + Weight(|a|) * Value(b)
    decreases |a|
  {
    if a == [] {
      assert a + b == b;
    } else {
      var rest := a[1..];
      assert (a + b)[0] == a[0] && (a + b)[1..] == rest + b;
      ValueConcat(rest, b);
      var w, x, y := Weight(|rest|), Value(rest), Value(b);
      Associate(256, w, y);
      Distribute(256, x, w * y);
    }
  }

  lemma {:induction false} ValueBound(a: seq<nat>)
    requires forall i :: 0 <= i < |a| ==> a[i] < 256
    ensures Value(a) < Weight(|a|)
    decreases |a|
  {
    if a != [] {
      ValueBound(a[1..]);
    }
  }

  lemma Shift(n: nat)
    ensures Pow2(n + 6) == 64 * Pow2(n) && Pow2(n + 8) == 256 * Pow2(n)
  {
    assert Pow2(n + 2) == 4 * Pow2(n);
    assert Pow2(n + 4) == 4 * Pow2(n + 2);
    assert Pow2(n + 6) == 4 * Pow2(n + 4);
  }

  /** A number as low digit, middle and high digit. */
  lemma ThreeParts(d: seq<nat>)
    requires |d| >= 2 && forall i :: 0 <= i < |d| ==> d[i] < 256
    ensures var n := |d| - 1;
            && Value(d) == d[0] + 256 * Value(d[1..n]) + Weight(n) * d[n]
            && d[0] + 256 * Value(d[1..n]) < Weight(n)
  {
    var n := |d| - 1;
    var low, high := d[..n], d[n..];
    assert d == low + high;
    ValueConcat(low, high);
    ValueBound(low);
    assert low[0] == d[0] && low[1..] == d[1..n];
    assert high[0] == d[n] && high[1..] == [];
    assert Value(high) == d[n];
  }

  lemma LowBits(b: nat, k: nat)
    ensures (b + 8 * k) % 8 == b % 8
  {
  }

  lemma Monotone(p: nat, r: nat, n: nat)
    requires r <= n
    ensures p * r <= p * n
  {
    Distribute(p, r, n - r);
  }

  /** A high digit of weight `p` splits off its two highest bits. */
  lemma HighSplit(p: nat, d: nat) returns (q: nat, r: nat)
    ensures r == d % 64 && p * d == q * (64 * p) + p * r
  {
    q, r := d / 64, d % 64;
    assert d == 64 * q + r;
    Distribute(p, 64 * q, r);
    Associate(p, 64, q);
    assert p * 64 == 64 * p;
  }

  lemma RestLowBits(u: nat, b0: nat, mid: nat, r: nat)
    ensures (b0 + 256 * mid + (256 * u) * r) % 8 == b0 % 8
  {
    Associate(256, u, r);
    LowBits(b0, 32 * mid + 32 * (u * r));
  }

  lemma ClampedDigits(bytes: seq<bv8>)
    requires |bytes| == 32
    ensures var d, c := Digits(bytes), Digits(Clamped(bytes));
            && c[0] == d[0] - d[0] % 8 && c[31] == 64 + d[31] % 64
            && c[1..31] == d[1..31]
            && forall i :: 0 <= i < 32 ==> d[i] < 256 && c[i] < 256
  {
    LowByte(bytes[0]);
    HighByte(bytes[31]);
  }

  /** The same on integers, for a high digit of weight `p == 256 * u`. */
  lemma ScalarArithmetic(p: nat, u: nat, d0: nat, mid: nat, d31: nat) returns (high: nat, low: nat)
    requires p == 256 * u && d0 + 256 * mid < p
    ensures d0 + 256 * mid + p * d31 == high * (64 * p) + low && low < 64 * p
    ensures d0 - d0 % 8 + 256 * mid + p * (64 + d31 % 64) == 64 * p + low - low % 8
  {
    var q, r := HighSplit(p, d31);
    high, low := q, d0 + 256 * mid + p * r;
    Monotone(p, r, 63);
    RestLowBits(u, d0, mid, r);
    Distribute(p, 64, r);
  }

  /** The same on digits. */
  lemma ClampedArithmetic(d: seq<nat>, c: seq<nat>) returns (high: nat, low: nat)
    requires |d| == |c| >= 2 && forall i :: 0 <= i < |d| ==> d[i] < 256 && c[i] < 256
    requires var n := |d| - 1; c[0] == d[0] - d[0] % 8 && c[n] == 64 + d[n] % 64 && c[1..n] == d[1..n]
    ensures Value(d) == high * (64 * Weight(|d| - 1)) + low && low < 64 * Weight(|d| - 1)
    ensures Value(c) == 64 * Weight(|d| - 1) + low - low % 8
  {
    var n := |d| - 1;
    ThreeParts(d);
    ThreeParts(c);
    high, low := ScalarArithmetic(Weight(n), Weight(n - 1), d[0], Value(d[1..n]), d[n]);
  }

  /** The clamped scalar as an integer: of the original, the part above bit 253 is replaced by
      bit 254 alone and the lowest three bits are cleared. */
  lemma ClampedValue(bytes: seq<bv8>) returns (high: nat, low: nat)
    requires |bytes| == 32
    ensures LittleEndian(bytes) == high * Pow2(254) + low && low < Pow2(254)
    ensures LittleEndian(Clamped(bytes)) == Pow2(254) + low - low % 8
  {
    ClampedDigits(bytes);
    high, low := ClampedArithmetic(Digits(bytes), Digits(Clamped(bytes)));
    WeightIsPow2(31);
    Shift(248);
  }

  lemma ScalarBounds(low: nat, m: nat, k: nat)
    requires m == 8 * k && low < m
    ensures (m + low - low % 8) % 8 == 0 && m <= m + low - low % 8 < 2 * m
  {
    var q := low / 8;
    EightTimes(low);
    assert m + low - low % 8 == 8 * (k + q);
    MultipleOfEight(k + q);
  }

  lemma EightTimes(n: nat)
    ensures n - n % 8 == 8 * (n / 8) && n % 8 <= n
  {
  }

  lemma MultipleOfEight(n: nat)
    ensures (8 * n) % 8 == 0
  {
    LowBits(0, n);
  }

  /** Clamping yields a multiple of eight in [2^254, 2^255). */
  lemma ClampedBounds(bytes: seq<bv8>)
    requires |bytes| == 32
    ensures var v := LittleEndian(Clamped(bytes));
            v % 8 == 0 && Pow2(254) <= v < Pow2(255)
  {
    var high, low := ClampedValue(bytes);
    Shift(248);
    ScalarBounds(low, Pow2(254), 8 * Pow2(248));
  }

  /** Clamping keeps every other bit. */
  lemma ClampedKeepsTheRest(bytes: seq<bv8>)
    requires |bytes| == 32
    ensures var c := Clamped(bytes);
            c[1..31] == bytes[1..31] && c[0] >> 3 == bytes[0] >> 3 && c[31] & 63 == bytes[31] & 63
  {
    LowMask(bytes[0]);
    HighMask(bytes[31]);
  }

  /** Clamping a clamped key changes nothing. */
  lemma ClampingIsIdempotent(bytes: seq<bv8>)
    requires |bytes| == 32
    ensures Clamped(Clamped(bytes)) == Clamped(bytes)
  {
    var c := Clamped(bytes);
    LowMask(bytes[0]);
    HighMask(bytes[31]);
    assert c[0 := c[0]] == c && c[31 := c[31]] == c;
  }

  lemma LowMask(b: bv8)
    ensures (b & LOW_MASK) >> 3 == b >> 3 && (b & LOW_MASK) & LOW_MASK == b & LOW_MASK
  {
  }

  lemma HighMask(b: bv8)
    ensures var c := (b & HIGH_MASK) | HIGH_BIT;
            c & 63 == b & 63 && (c & HIGH_MASK) | HIGH_BIT == c
  {
  }
}
