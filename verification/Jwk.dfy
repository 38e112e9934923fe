/** internal/middleware/auth.go: the exponent loop of jwk.publicKey (section 6.3.1.2 of RFC 7518) and the
    loop that fills the key set.  Decoded base64 is an input: None where decoding fails. */
module Jwk {
  import opened Tenants
  import opened Numbers

  type Byte = b: int | 0 <= b < 256

  const TWO64 := 0x1_0000_0000_0000_0000
  const TWO63 := 0x8000_0000_0000_0000

  /** Go's int on a 64-bit machine: the value modulo 2^64, between -2^63 and 2^63 - 1. */
  function Wrap(x: int): int { (x + TWO63) % TWO64 - TWO63 }

  function BigEndian(bytes: seq<Byte>): nat {
    if bytes == [] then 0 else BigEndian(bytes[..|bytes|-1]) * 256 + bytes[|bytes|-1]
  }

  // ---------------------------------------------------------------- shift and or

  /** The bits of an int, read as a natural number. */
  function Bits(x: int): nat { x % TWO64 }

  function Pow2(n: nat): (r: nat)
    ensures r >= 1
  {
    if n == 0 then 1 else 2 * Pow2(n-1)
  }

  /** x << n on 64 bits. */
  function ShiftLeft(x: nat, n: nat): nat { x * Pow2(n) % TWO64 }

  /** x | y, bit by bit. */
  function Or(x: nat, y: nat): nat
    decreases x + y
  {
    if x == 0 && y == 0 then 0
    else 2 * Or(x / 2, y / 2) + (if x % 2 == 1 || y % 2 == 1 then 1 else 0)
  }

  lemma {:induction false} OrZero(x: nat)
    ensures Or(x, 0) == x
  {
    if x > 0 { OrZero(x / 2); }
  }

  /** Over n clear bits the or of a number of n bits is the sum. */
  lemma {:induction false} OrIsSum(high: nat, low: nat, n: nat)
    requires low < Pow2(n)
    ensures Or(high * Pow2(n), low) == high * Pow2(n) + low
  {
    if n == 0 {
      OrZero(high);
    } else {
      var half := high * Pow2(n-1);
      assert high * Pow2(n) == 2 * half;
      OrIsSum(high, low / 2, n-1);
    }
  }

  /** One turn of the loop appends a byte, modulo 2^64. */
  lemma ShiftOrAppends(x: int, b: Byte)
    ensures Wrap(Or(ShiftLeft(Bits(x), 8), b)) == Wrap(x * 256 + b)
  {
    assert Pow2(8) == 256;
    var q, r := x / TWO64, Bits(x);
    var t := r * 256 / TWO64;
    var high := r - t * (TWO64 / 256);
    assert ShiftLeft(r, 8) == r * 256 - t * TWO64 == high * Pow2(8);
    OrIsSum(high, b, 8);
    TurnsDrop(x * 256 + b, q * 256 + t);
  }

  lemma WrapForgetsWholeTurns(x: int, b: Byte)
    ensures Wrap(Wrap(x) * 256 + b) == Wrap(x * 256 + b)
  {
    var q := (x + TWO63) / TWO64;
    assert Wrap(x) == x - q * TWO64;
    TurnsDrop(x * 256 + b, q * 256);
  }

  lemma TurnsDrop(y: int, k: int)
    ensures Wrap(y - k * TWO64) == Wrap(y)
  {
    var z := y + TWO63;
    var q := z / TWO64;
    assert z == q * TWO64 + z % TWO64;
    assert z - k * TWO64 == (q - k) * TWO64 + z % TWO64;
  }

  /** ei = ei<<8 | int(b) computes the big-endian value in wrap-around arithmetic. */
  method Exponent(e: seq<Byte>) returns (ei: int)
    ensures ei == Wrap(BigEndian(e))
  {
    ei := 0;
    for i := 0 to |e|
      invariant ei == Wrap(BigEndian(e[..i]))
    {
      ShiftOrAppends(ei, e[i]);
      WrapForgetsWholeTurns(BigEndian(e[..i]), e[i]);
      assert e[..i+1][..i] == e[..i];
      ei := Wrap(Or(ShiftLeft(Bits(ei), 8), e[i]));
    }
    assert e[..|e|] == e;
  }

  // ---------------------------------------------------------------- what the value is

  /** Wrapping is into 64 signed bits, and by whole turns. */
  lemma WrapIsSigned(x: int)
    ensures -TWO63 <= Wrap(x) < TWO63 && (Wrap(x) - x) % TWO64 == 0
  {
    var q := (x + TWO63) / TWO64;
    assert Wrap(x) - x == -q * TWO64;
    MultipleOf64(-q);
  }

  lemma MultipleOf64(k: int)
    ensures k * TWO64 % TWO64 == 0
  {
  }

  /** Bytes in front weigh 256 to the number of bytes behind them. */
  lemma {:induction false} BigEndianOfConcat(a: seq<Byte>, b: seq<Byte>)
    ensures BigEndian(a + b) == BigEndian(a) * Pow2(8 * |b|) + BigEndian(b)
  {
    if b == [] {
      assert a + b == a;
    } else {
      var n := |b| - 1;
      assert (a + b)[..|a + b| - 1] == a + b[..n];
      BigEndianOfConcat(a, b[..n]);
      EightMore(8 * n);
      AppendByte(BigEndian(a), Pow2(8 * n), BigEndian(b[..n]), b[n]);
    }
  }

  lemma AppendByte(high: nat, p: nat, low: nat, byte: Byte)
    ensures (high * p + low) * 256 + byte == high * (256 * p) + (low * 256 + byte)
  {
  }

  lemma EightMore(n: nat)
    ensures Pow2(n + 8) == 256 * Pow2(n)
  {
    assert Pow2(n + 8) == 2 * Pow2(n + 7) == 4 * Pow2(n + 6) == 8 * Pow2(n + 5) == 16 * Pow2(n + 4);
    assert Pow2(n + 4) == 2 * Pow2(n + 3) == 4 * Pow2(n + 2) == 8 * Pow2(n + 1);
  }

  lemma {:induction false} BigEndianBound(e: seq<Byte>)
    ensures BigEndian(e) < Pow2(8 * |e|)
  {
    if e != [] {
      BigEndianBound(e[..|e|-1]);
      EightMore(8 * (|e| - 1));
    }
  }

  lemma Digits(high: nat, byte: Byte, low: nat, p: nat)
    requires 0 <= low < p
    ensures ((high * 256 + byte) * p + low) / p % 256 == byte
  {
    DivisionIs((high * 256 + byte) * p + low, high * 256 + byte, low, p);
  }

  /** Every byte of the input is a digit, in base 256 and counted from the end, of the value. */
  lemma BytesAreDigits(e: seq<Byte>, i: nat)
    requires i < |e|
    ensures BigEndian(e) / Pow2(8 * (|e| - 1 - i)) % 256 == e[i]
  {
    var front, back := e[..i+1], e[i+1..];
    assert e == front + back && front[..i] == e[..i];
    BigEndianOfConcat(front, back);
    BigEndianBound(back);
    Digits(BigEndian(e[..i]), e[i], BigEndian(back), Pow2(8 * |back|));
  }

  lemma SevenBytesFit(e: seq<Byte>)
    requires |e| <= 7
    ensures BigEndian(e) < TWO63
  {
    var powers := [1, 0x100, 0x1_0000, 0x100_0000, 0x1_0000_0000, 0x100_0000_0000, 0x1_0000_0000_0000, 0x100_0000_0000_0000];
    BigEndianBelow(e, powers, |e|);
  }

  lemma {:induction false} BigEndianBelow(e: seq<Byte>, powers: seq<int>, n: nat)
    requires |e| == n < |powers| && powers[0] == 1
    requires forall i | 0 < i < |powers| :: powers[i] == 256 * powers[i-1]
    ensures BigEndian(e) < powers[n]
  {
    if n > 0 { BigEndianBelow(e[..n-1], powers, n-1); }
  }

  /** The exponent is right exactly when the value fits 63 bits -- always, for up to seven bytes. */
  lemma ExponentIsExactIff(e: seq<Byte>)
    ensures Wrap(BigEndian(e)) == BigEndian(e) <==> BigEndian(e) < TWO63
    ensures |e| <= 7 ==> BigEndian(e) < TWO63
  {
    if |e| <= 7 { SevenBytesFit(e); }
  }

  lemma {:induction false} LeadingZerosDoNotCount(e: seq<Byte>)
    ensures BigEndian([0] + e) == BigEndian(e)
  {
    var padded := [0] + e;
    if e == [] {
      assert padded[..0] == [];
    } else {
      assert padded[..|padded|-1] == [0] + e[..|e|-1];
      LeadingZerosDoNotCount(e[..|e|-1]);
    }
  }

  // ---------------------------------------------------------------- the key set

  datatype Key = Key(kid: string, n: Option<seq<Byte>>, e: Option<seq<Byte>>)
  datatype PublicKey = PublicKey(n: seq<Byte>, e: int)

  predicate Decodable(k: Key) { k.n.Some? && k.e.Some? }

  function KeySetOf(keys: seq<Key>): map<string, PublicKey> {
    if keys == [] then map[]
    else
      var before, k := KeySetOf(keys[..|keys|-1]), keys[|keys|-1];
      if Decodable(k) then before[k.kid := PublicKey(k.n.value, Wrap(BigEndian(k.e.value)))] else before
  }

  method BuildKeySet(keys: seq<Key>) returns (keySet: map<string, PublicKey>)
    ensures keySet == KeySetOf(keys)
  {
    keySet := map[];
    for c := 0 to |keys|
      invariant keySet == KeySetOf(keys[..c])
    {
      var key := keys[c];
      assert keys[..c+1][..c] == keys[..c];
      if key.n.Some? && key.e.Some? {
        var ei := Exponent(key.e.value);
        keySet := keySet[key.kid := PublicKey(key.n.value, ei)];
      }
    }
    assert keys[..|keys|] == keys;
  }

  /** From position i on there is no decodable key with this id. */
  ghost predicate NoneFrom(keys: seq<Key>, kid: string, i: nat) {
    forall j | i <= j < |keys| :: Decodable(keys[j]) ==> keys[j].kid != kid
  }

  /** Keys that do not decode are skipped; of several with one id the last wins. */
  lemma {:induction false} LastKeyWins(keys: seq<Key>, kid: string, i: nat)
    requires i < |keys| && Decodable(keys[i]) && keys[i].kid == kid && NoneFrom(keys, kid, i+1)
    ensures kid in KeySetOf(keys)
    ensures KeySetOf(keys)[kid] == PublicKey(keys[i].n.value, Wrap(BigEndian(keys[i].e.value)))
  {
    hide Wrap, BigEndian;
    if i < |keys| - 1 {
      LastKeyWins(keys[..|keys|-1], kid, i);
    }
  }

  lemma {:induction false} UnknownKeyIsAbsent(keys: seq<Key>, kid: string)
    requires NoneFrom(keys, kid, 0)
    ensures kid !in KeySetOf(keys)
  {
    hide Wrap, BigEndian;
    if keys != [] {
      UnknownKeyIsAbsent(keys[..|keys|-1], kid);
    }
  }
}
