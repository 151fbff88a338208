/**
 `Hash64`: 64-bit FNV-1a (section 2 of draft-eastlake-fnv), with the constants of the source. Words are integers
 modulo 2^64; exclusive-or is spelled out bit by bit.
 */
module Hash {
  import opened Prelude

  const MODULUS: int := 0x1_0000_0000_0000_0000
  const OFFSET_BASIS: int := 14695981039346656037
  const PRIME: int := 1099511628211
  /** The inverse of the prime modulo 2^64; it exists because the prime is odd. */
  const INVERSE: int := 14886173955864302971
  const BUFFER_SIZE: nat := 4096

  type Word = x: int | 0 <= x < MODULUS
  type Byte = x: int | 0 <= x < 256

  function Pow2(n: nat): nat
  {
    if n == 0 then 1 else 2 * Pow2(n - 1)
  }

  /** Exclusive-or of the lowest `n` bits. */
  function Xor(a: nat, b: nat, n: nat): (r: nat)
    ensures r < Pow2(n)
  {
    if n == 0 then 0 else (a + b) % 2 + 2 * Xor(a / 2, b / 2, n - 1)
  }

  function XorWord(value: Word, byte: Byte): Word
  {
    WordBits();
    Xor(value, byte, 64)
  }

  lemma WordBits()
    ensures Pow2(64) == MODULUS
  {
    assert Pow2(8) == 256;
    Pow2Sum(8, 8);
    Pow2Sum(16, 16);
    Pow2Sum(32, 32);
  }

  lemma {:induction false} Pow2Sum(m: nat, n: nat)
    ensures Pow2(m + n) == Pow2(m) * Pow2(n)
  {
    if m > 0 {
      Pow2Sum(m - 1, n);
      var a, c := Pow2(m - 1), Pow2(m - 1 + n);
      assert Pow2(m) == 2 * a && Pow2(m + n) == 2 * c;
      hide *;
      TwiceProduct(a, Pow2(n), c);
    }
  }

  lemma TwiceProduct(a: nat, b: nat, c: nat)
    requires c == a * b
    ensures 2 * c == (2 * a) * b
  {
  }

  /** Multiplication wraps around. */
  function Times(value: Word): Word
  {
    (value * PRIME) % MODULUS
  }

  /** One byte of input. */
  function Absorb(value: Word, byte: Byte): Word
  {
    Times(XorWord(value, byte))
  }

  function Fnv(value: Word, text: seq<Byte>): Word
    decreases |text|
  {
    if text == [] then value else Fnv(Absorb(value, text[0]), text[1..])
  }

  function HashOf(text: seq<Byte>): Word
  {
    Fnv(OFFSET_BASIS, text)
  }

  // ------------------------------------------------------------------------------------------
  // Known values
  // ------------------------------------------------------------------------------------------

  predicate Bit(x: nat, k: nat)
  {
    if k == 0 then x % 2 == 1 else Bit(x / 2, k - 1)
  }

  /** A bit of an exclusive-or is one exactly when the two bits differ. */
  lemma {:induction false} XorBit(a: nat, b: nat, n: nat, k: nat)
    requires k < n
    ensures Bit(Xor(a, b, n), k) <==> Bit(a, k) != Bit(b, k)
  {
    XorParts(a, b, n);
    if k > 0 {
      XorBit(a / 2, b / 2, n - 1, k - 1);
      hide Xor;
    } else {
      hide Xor;
      ParityOfSum(a, b);
    }
  }

  lemma ParityOfSum(a: nat, b: nat)
    ensures (a + b) % 2 == 1 <==> (a % 2 == 1) != (b % 2 == 1)
  {
  }

  lemma {:induction false} XorNothing(a: nat, n: nat)
    requires a < Pow2(n)
    ensures Xor(a, 0, n) == a
  {
    if n > 0 {
      XorNothing(a / 2, n - 1);
    }
  }

  /** Exclusive-or of the lowest bits, one by one. */
  function TwoBits(a: nat, b: nat): nat
  {
    (a + b) % 2 + 2 * ((a / 2 + b / 2) % 2)
  }

  function FourBits(a: nat, b: nat): nat
  {
    TwoBits(a, b) + 4 * TwoBits(a / 4, b / 4)
  }

  lemma XorTwo(a: nat, b: nat, n: nat)
    requires n >= 2
    ensures Xor(a, b, n) == TwoBits(a, b) + 4 * Xor(a / 4, b / 4, n - 2)
  {
    assert Xor(a / 2, b / 2, n - 1) == (a / 2 + b / 2) % 2 + 2 * Xor(a / 2 / 2, b / 2 / 2, n - 2);
  }

  lemma XorFour(a: nat, b: nat, n: nat)
    requires n >= 4
    ensures Xor(a, b, n) == FourBits(a, b) + 16 * Xor(a / 16, b / 16, n - 4)
  {
    XorTwo(a, b, n);
    XorTwo(a / 4, b / 4, n - 2);
    hide Xor, TwoBits;
    assert a / 4 / 4 == a / 16 && b / 4 / 4 == b / 16;
  }

  /** Only the lowest eight bits of a word change. */
  lemma XorByte(a: Word, b: Byte)
    ensures XorWord(a, b) == FourBits(a, b) + 16 * FourBits(a / 16, b / 16) + 256 * (a / 256)
  {
    XorFour(a, b, 64);
    XorFour(a / 16, b / 16, 60);
    WordBits();
    Pow2Sum(8, 56);
    assert Pow2(8) == 256;
    hide *;
    assert a / 16 / 16 == a / 256 && b / 16 / 16 == 0;
    XorNothing(a / 256, 56);
    XorWordIs(a, b);
  }

  lemma XorWordIs(a: Word, b: Byte)
    ensures XorWord(a, b) == Xor(a, b, 64)
  {
  }

  lemma FnvStep(value: Word, byte: Byte, rest: seq<Byte>)
    ensures Fnv(value, [byte] + rest) == Fnv(Absorb(value, byte), rest)
  {
    assert ([byte] + rest)[1..] == rest;
  }

  lemma FnvNothing(value: Word)
    ensures Fnv(value, []) == value
  {
  }

  lemma MixedBits()
    ensures FourBits(0xcbf29ce484222325, 0x61) == 4 && FourBits(0xcbf29ce484222325 / 16, 0x61 / 16) == 4
  {
    assert TwoBits(0xcbf29ce484222325, 0x61) == 0 && TwoBits(0xcbf29ce484222325 / 4, 0x61 / 4) == 1;
    assert TwoBits(0xcbf29ce484222325 / 16, 0x61 / 16) == 0;
    assert TwoBits(0xcbf29ce484222325 / 16 / 4, 0x61 / 16 / 4) == 1;
  }

  lemma MixedWord()
    ensures XorWord(0xcbf29ce484222325, 0x61) == 0xcbf29ce484222344
  {
    hide FourBits, XorWord;
    MixedBits();
    XorByte(0xcbf29ce484222325, 0x61);
  }

  lemma MixedProduct()
    ensures Absorb(0xcbf29ce484222325, 0x61) == 0xaf63dc4c8601ec8c
  {
    hide XorWord;
    MixedWord();
  }

  /** The published values for the empty text and for "a". */
  lemma KnownValues()
    ensures HashOf([]) == 0xcbf29ce484222325
    ensures HashOf([0x61]) == 0xaf63dc4c8601ec8c
  {
    MixedProduct();
    hide Absorb, Fnv;
    FnvNothing(0xcbf29ce484222325);
    FnvStep(0xcbf29ce484222325, 0x61, []);
    FnvNothing(Absorb(0xcbf29ce484222325, 0x61));
    assert [0x61 as Byte] + [] == [0x61];
  }

  // ------------------------------------------------------------------------------------------
  // Every byte is a bijection on words
  // ------------------------------------------------------------------------------------------

  lemma XorParts(a: nat, b: nat, n: nat)
    requires n > 0
    ensures Xor(a, b, n) / 2 == Xor(a / 2, b / 2, n - 1) && Xor(a, b, n) % 2 == (a + b) % 2
  {
  }

  lemma {:induction false} XorTwice(a: nat, b: nat, n: nat)
    requires a < Pow2(n)
    ensures Xor(Xor(a, b, n), b, n) == a
  {
    if n > 0 {
      var r := Xor(a, b, n);
      XorTwice(a / 2, b / 2, n - 1);
      XorParts(a, b, n);
      XorParts(r, b, n);
      hide Xor;
      AddedTwice(a, b, r);
    }
  }

  lemma AddedTwice(a: nat, b: nat, r: nat)
    requires r % 2 == (a + b) % 2
    ensures (r + b) % 2 == a % 2
  {
  }

  lemma SameHalves(a: nat, b: nat, c: nat)
    requires (a + b) % 2 == (a + c) % 2 && b / 2 == c / 2
    ensures b == c
  {
    assert b % 2 == c % 2;
  }

  lemma {:induction false} XorSeparates(a: nat, b: nat, c: nat, n: nat)
    requires b < Pow2(n) && c < Pow2(n) && Xor(a, b, n) == Xor(a, c, n)
    ensures b == c
  {
    if n > 0 {
      XorParts(a, b, n);
      XorParts(a, c, n);
      hide Xor;
      XorSeparates(a / 2, b / 2, c / 2, n - 1);
      SameHalves(a, b, c);
    }
  }

  /** A product with `p` is undone by a product with its inverse. */
  lemma Cancel(value: Word, p: int, q: int)
    requires (p == PRIME && q == INVERSE) || (p == INVERSE && q == PRIME)
    ensures (((value * p) % MODULUS) * q) % MODULUS == value
  {
    var k, r := (value * p) / MODULUS, (value * p) % MODULUS;
    assert value * p == MODULUS * k + r;
    var product := r * q;
    assert product == value + MODULUS * (value * 887285111055 - k * q);
    Remainder(product, value, value * 887285111055 - k * q);
  }

  lemma Remainder(x: int, r: int, k: int)
    requires 0 <= r < MODULUS && x == r + MODULUS * k
    ensures x % MODULUS == r
  {
  }

  /** The word that a byte turns into `value`. */
  function Unabsorb(value: Word, byte: Byte): Word
  {
    XorWord((value * INVERSE) % MODULUS, byte)
  }

  /** For every byte, `Absorb` is a bijection on words. */
  lemma AbsorbIsBijective(value: Word, byte: Byte)
    ensures Unabsorb(Absorb(value, byte), byte) == value
    ensures Absorb(Unabsorb(value, byte), byte) == value
  {
    WordBits();
    Cancel(XorWord(value, byte), PRIME, INVERSE);
    Cancel(value, INVERSE, PRIME);
    XorTwice(value, byte, 64);
    XorTwice((value * INVERSE) % MODULUS, byte, 64);
    hide Xor, Pow2;
  }

  /** For every word, different bytes lead to different words. */
  lemma AbsorbSeparatesBytes(value: Word, byte: Byte, other: Byte)
    requires Absorb(value, byte) == Absorb(value, other)
    ensures byte == other
  {
    WordBits();
    Cancel(XorWord(value, byte), PRIME, INVERSE);
    Cancel(XorWord(value, other), PRIME, INVERSE);
    hide Xor;
    XorSeparates(value, byte, other, 64);
  }

  lemma {:induction false} FnvConcat(value: Word, a: seq<Byte>, b: seq<Byte>)
    ensures Fnv(value, a + b) == Fnv(Fnv(value, a), b)
    decreases |a|
  {
    hide Absorb;
    if a == [] {
      assert a + b == b;
    } else {
      assert (a + b)[0] == a[0] && (a + b)[1..] == a[1..] + b;
      FnvConcat(Absorb(value, a[0]), a[1..], b);
    }
  }

  /** The same text takes different words to different words. */
  lemma {:induction false} FnvSeparatesStates(value: Word, other: Word, text: seq<Byte>)
    requires Fnv(value, text) == Fnv(other, text)
    ensures value == other
    decreases |text|
  {
    hide Absorb, Unabsorb;
    if text != [] {
      FnvSeparatesStates(Absorb(value, text[0]), Absorb(other, text[0]), text[1..]);
      AbsorbIsBijective(value, text[0]);
      AbsorbIsBijective(other, text[0]);
    }
  }

  /** Two texts of equal length that differ in exactly one byte never have the same hash. */
  lemma OneByteIsAlwaysSeen(text: seq<Byte>, k: nat, byte: Byte)
    requires k < |text|
    ensures HashOf(text[k := byte]) == HashOf(text) <==> byte == text[k]
  {
    hide HashOf, Fnv, Absorb;
    var v, after := Fnv(OFFSET_BASIS, text[..k]), text[k + 1..];
    OneByteInside(text, k, text[k]);
    OneByteInside(text, k, byte);
    assert text[k := text[k]] == text;
    if HashOf(text[k := byte]) == HashOf(text) {
      FnvSeparatesStates(Absorb(v, byte), Absorb(v, text[k]), after);
      AbsorbSeparatesBytes(v, byte, text[k]);
    }
  }

  lemma OneByteInside(text: seq<Byte>, k: nat, byte: Byte)
    requires k < |text|
    ensures HashOf(text[k := byte]) == Fnv(Absorb(Fnv(OFFSET_BASIS, text[..k]), byte), text[k + 1..])
  {
    hide Absorb;
    var before, after := text[..k], text[k + 1..];
    assert text[k := byte] == before + ([byte] + after);
    FnvConcat(OFFSET_BASIS, before, [byte] + after);
    assert ([byte] + after)[1..] == after;
  }

  // ------------------------------------------------------------------------------------------
  // The hasher
  // ------------------------------------------------------------------------------------------

  /** A file as a stream: not to be opened, or some bytes and then its end or a read error. */
  datatype Input = Unopened | Stream(bytes: seq<Byte>, broken: bool)

  class Hash64 {
    var value: Word

    constructor ()
      ensures value == OFFSET_BASIS
    {
      value := OFFSET_BASIS;
    }

    method Update(text: seq<Byte>)
      modifies this
      ensures value == Fnv(old(value), text)
    {
      for k := 0 to |text|
        invariant Fnv(value, text[k..]) == Fnv(old(value), text)
      {
        assert text[k..][0] == text[k] && text[k..][1..] == text[k + 1..];
        XorThenTimes(value, text[k]);
        value := XorWord(value, text[k]);
        value := Times(value);
      }
    }

    /**
     The buffered reader hashes the whole file at once, whatever its length; it returns false when there is
     nothing to open or when reading ends otherwise than at the end of the file.
     */
    method UpdateFile(input: Input) returns (ok: bool)
      modifies this
      ensures ok <==> input.Stream? && !input.broken
      ensures value == if input.Stream? then Fnv(old(value), input.bytes) else old(value)
    {
      if input.Unopened? {
        return false;
      }
      var buffer := new Byte[BUFFER_SIZE];
      var position, good := 0, true;
      assert input.bytes[..0] == [];
      while good
        invariant position <= |input.bytes| && (!good ==> position == |input.bytes|)
        invariant value == Fnv(old(value), input.bytes[..position])
        decreases good, |input.bytes| - position
      {
        var count := ReadInto(buffer, input.bytes, position);
        good := count == BUFFER_SIZE;
        if count > 0 {
          ghost var chunk := input.bytes[position..position + count];
          assert buffer[..count] == chunk;
          FnvConcat(old(value), input.bytes[..position], chunk);
          assert input.bytes[..position + count] == input.bytes[..position] + chunk;
          Update(buffer[..count]);
        }
        position := position + count;
      }
      assert input.bytes[..position] == input.bytes;
      return !input.broken;
    }
  }

  lemma XorThenTimes(value: Word, byte: Byte)
    ensures Absorb(value, byte) == Times(XorWord(value, byte))
  {
  }

  /** `istream::read` followed by `gcount`: fills the buffer, or takes what is left. */
  method ReadInto(buffer: array<Byte>, bytes: seq<Byte>, position: nat) returns (count: nat)
    requires position <= |bytes| && buffer.Length == BUFFER_SIZE
    modifies buffer
    ensures count == if |bytes| - position < BUFFER_SIZE then |bytes| - position else BUFFER_SIZE
    ensures buffer[..count] == bytes[position..position + count]
  {
    count := if |bytes| - position < BUFFER_SIZE then |bytes| - position else BUFFER_SIZE;
    for k := 0 to count
      invariant buffer[..k] == bytes[position..position + k]
    {
      buffer[k] := bytes[position + k];
    }
  }

  method HashString(text: seq<Byte>) returns (hash: Word)
    ensures hash == HashOf(text)
  {
    var hasher := new Hash64();
    hasher.Update(text);
    hash := hasher.value;
  }
}
