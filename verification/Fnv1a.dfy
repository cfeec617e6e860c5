/** The 64-bit FNV-1a hash that fingerprints the sampled bytes of a frame,
    with the recurrence of section 2 of draft-eastlake-fnv. */
module Fnv1a {
  import opened VideoFrames

  const MODULUS: nat := 0x1_0000_0000_0000_0000
  const PRIME: nat := 1099511628211
  const OFFSET_BASIS: nat := 1469598103934665603
  /** The prime is odd, so it has an inverse modulo 2^64. */
  const PRIME_INVERSE: nat := 0xce965057aff6957b

  type Hash = h: nat | h < MODULUS

  /** Bitwise exclusive or of the low `bits` bits. */
  function Xor(a: nat, b: nat, bits: nat): nat
    decreases bits
  {
    if bits == 0 then 0
    else 2 * Xor(a / 2, b / 2, bits - 1) + (if a % 2 == b % 2 then 0 else 1)
  }

  /** Hash words are 64 bits wide. */
  function WordBits(): nat { 64 }

  function Step(h: Hash, b: Byte): Hash {
    (Xor(h, b as nat, WordBits()) * PRIME) % MODULUS
  }

  function Fold(h: Hash, bytes: seq<Byte>): Hash {
    if |bytes| == 0 then h
    else Step(Fold(h, bytes[..|bytes| - 1]), bytes[|bytes| - 1])
  }

  function Pow2(n: nat): nat {
    if n == 0 then 1 else 2 * Pow2(n - 1)
  }

  lemma {:induction false} Pow2Add(a: nat, b: nat)
    ensures Pow2(a + b) == Pow2(a) * Pow2(b)
  {
    if a > 0 {
      Pow2Add(a - 1, b);
    }
  }

  lemma WordWidth()
    ensures Pow2(WordBits()) == MODULUS
  {
    assert Pow2(2) == 4;
    Pow2Add(2, 2);
    Pow2Add(4, 4);
    Pow2Add(8, 8);
    Pow2Add(16, 16);
    Pow2Add(32, 32);
    assert WordBits() == 64;
  }

  lemma {:induction false} XorBound(a: nat, b: nat, bits: nat)
    ensures Xor(a, b, bits) < Pow2(bits)
    decreases bits
  {
    if bits > 0 {
      XorBound(a / 2, b / 2, bits - 1);
    }
  }

  lemma {:induction false} XorInjective(a: nat, b: nat, c: nat, d: nat, bits: nat)
    requires a < Pow2(bits) && b < Pow2(bits) && c < Pow2(bits) && d < Pow2(bits)
    requires Xor(a, b, bits) == Xor(c, d, bits)
    ensures a == c <==> b == d
    decreases bits
  {
    if bits > 0 {
      XorInjective(a / 2, b / 2, c / 2, d / 2, bits - 1);
    }
  }

  lemma MultiplyInjective(x: Hash, y: Hash)
    requires (x * PRIME) % MODULUS == (y * PRIME) % MODULUS
    ensures x == y
  {
    var k := (PRIME * PRIME_INVERSE - 1) / MODULUS;
    assert PRIME * PRIME_INVERSE == 1 + k * MODULUS;
    var q := (x * PRIME) / MODULUS - (y * PRIME) / MODULUS;
    assert (x - y) * PRIME == q * MODULUS;
    assert (x - y) * PRIME * PRIME_INVERSE == q * MODULUS * PRIME_INVERSE;
    assert x - y == (q * PRIME_INVERSE - k * (x - y)) * MODULUS;
  }

  /** A step loses nothing: equal results from equal bytes mean equal states, and
      equal results from equal states mean equal bytes. */
  lemma StepInjective(g: Hash, a: Byte, h: Hash, b: Byte)
    requires Step(g, a) == Step(h, b)
    ensures g == h <==> a == b
  {
    WordWidth();
    XorBound(g, a as nat, WordBits());
    XorBound(h, b as nat, WordBits());
    MultiplyInjective(Xor(g, a as nat, WordBits()), Xor(h, b as nat, WordBits()));
    XorInjective(g, a as nat, h, b as nat, WordBits());
  }

  lemma {:induction false} FoldConcat(h: Hash, a: seq<Byte>, b: seq<Byte>)
    ensures Fold(h, a + b) == Fold(Fold(h, a), b)
  {
    if |b| == 0 {
      assert a + b == a;
    } else {
      hide Step;
      FoldConcat(h, a, b[..|b| - 1]);
      assert (a + b)[..|a + b| - 1] == a + b[..|b| - 1];
    }
  }

  lemma {:induction false} FoldInjectiveInState(g: Hash, h: Hash, bytes: seq<Byte>)
    requires g != h
    ensures Fold(g, bytes) != Fold(h, bytes)
  {
    if |bytes| > 0 {
      var last := |bytes| - 1;
      FoldInjectiveInState(g, h, bytes[..last]);
      if Fold(g, bytes) == Fold(h, bytes) {
        StepInjective(Fold(g, bytes[..last]), bytes[last], Fold(h, bytes[..last]), bytes[last]);
      }
    }
  }

  /** Whatever the basis, two equally long byte strings that differ in exactly one
      place never have the same hash. */
  lemma OneByteChangesHash(basis: Hash, s: seq<Byte>, i: nat, b: Byte)
    requires i < |s| && s[i] != b
    ensures Fold(basis, s[i := b]) != Fold(basis, s)
  {
    var before, after := s[..i], s[i + 1..];
    assert s == (before + [s[i]]) + after;
    assert s[i := b] == (before + [b]) + after;
    FoldConcat(basis, before + [s[i]], after);
    FoldConcat(basis, before + [b], after);
    assert (before + [s[i]])[..i] == before && (before + [b])[..i] == before;
    var h := Fold(basis, before);
    if Step(h, s[i]) == Step(h, b) {
      StepInjective(h, s[i], h, b);
    }
    FoldInjectiveInState(Step(h, s[i]), Step(h, b), after);
  }

  // ---- what the constants amount to ----------------------------------------------------------

  function Bit(n: nat, k: nat): nat {
    if k == 0 then n % 2 else Bit(n / 2, k - 1)
  }

  /** A bit of the exclusive or is set exactly where the two words differ. */
  lemma {:induction false} XorBit(a: nat, b: nat, bits: nat, k: nat)
    requires k < bits
    ensures Bit(Xor(a, b, bits), k) == if Bit(a, k) == Bit(b, k) then 0 else 1
  {
    if k > 0 {
      XorBit(a / 2, b / 2, bits - 1, k - 1);
      assert Xor(a, b, bits) / 2 == Xor(a / 2, b / 2, bits - 1);
    }
  }

  /** The offset basis of section 5 of draft-eastlake-fnv. */
  const STANDARD_BASIS: nat := 14695981039346656037

  /** The source's basis is the standard one without its last digit; so on every input the checksum
      differs from the standard hash. */
  lemma NeverTheStandardHash(bytes: seq<Byte>)
    ensures STANDARD_BASIS == 10 * OFFSET_BASIS + 7
    ensures Fold(OFFSET_BASIS, bytes) != Fold(STANDARD_BASIS, bytes)
  {
    FoldInjectiveInState(OFFSET_BASIS, STANDARD_BASIS, bytes);
  }
}
