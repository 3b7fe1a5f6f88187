/** In-place encryption by words of a repeating key (Assignment-6/encryption.h). */
module Encryption {

  type Byte = b: nat | b < 256
  type Word32 = w: nat | w < 0x1_0000_0000

  /** Bitwise exclusive or. */
  function Xor(a: nat, b: nat): nat {
    if a == 0 && b == 0 then 0
    else (if a % 2 == b % 2 then 0 else 1) + 2 * Xor(a / 2, b / 2)
  }

  /** h shifted left by n bits. */
  function Shift(h: nat, n: nat): (r: nat)
    ensures h <= r
  {
    if n == 0 then h else 2 * Shift(h, n - 1)
  }

  lemma {:induction false} XorBound(a: nat, b: nat, n: nat)
    requires a < Shift(1, n) && b < Shift(1, n)
    ensures Xor(a, b) < Shift(1, n)
  {
    if n > 0 && !(a == 0 && b == 0) {
      XorBound(a / 2, b / 2, n - 1);
    }
  }

  lemma XorParts(r: nat, s: nat, a: nat, b: nat)
    requires r < 2 && s < 2
    ensures Xor(r + 2 * a, s + 2 * b) == (if r == s then 0 else 1) + 2 * Xor(a, b)
  {
    var x, y := r + 2 * a, s + 2 * b;
    assert x % 2 == r && x / 2 == a && y % 2 == s && y / 2 == b;
    if x == 0 && y == 0 {
      assert Xor(a, b) == 0;
    }
  }

  lemma {:induction false} XorTwice(a: nat, k: nat)
    ensures Xor(Xor(a, k), k) == a
    decreases a + k
  {
    if a == 0 && k == 0 {
    } else {
      var r, s, a1, k1 := a % 2, k % 2, a / 2, k / 2;
      XorTwice(a1, k1);
      TwoStepsBack(r, s, a1, k1);
    }
  }

  lemma TwoStepsBack(r: nat, s: nat, a: nat, k: nat)
    requires r < 2 && s < 2 && Xor(Xor(a, k), k) == a
    ensures Xor(Xor(r + 2 * a, s + 2 * k), s + 2 * k) == r + 2 * a
  {
    XorParts(r, s, a, k);
    XorParts(if r == s then 0 else 1, s, Xor(a, k), k);
  }

  lemma XorDouble(a: nat, k: nat, m: nat, mk: nat, x: nat)
    requires Xor(a / 2 + m, k / 2 + mk) == Xor(a / 2, k / 2) + x
    ensures Xor(a + 2 * m, k + 2 * mk) == Xor(a, k) + 2 * x
  {
    var r, s, a1, k1 := a % 2, k % 2, a / 2, k / 2;
    XorParts(r, s, a1 + m, k1 + mk);
    XorParts(r, s, a1, k1);
    assert a == r + 2 * a1 && k == s + 2 * k1;
    assert a + 2 * m == r + 2 * (a1 + m) && k + 2 * mk == s + 2 * (k1 + mk);
  }

  /** Exclusive or works separately on the low n bits and on the rest. */
  lemma {:induction false} XorSplit(a: nat, k: nat, high: nat, highK: nat, n: nat)
    requires a < Shift(1, n) && k < Shift(1, n)
    ensures Xor(a + Shift(high, n), k + Shift(highK, n)) == Xor(a, k) + Shift(Xor(high, highK), n)
  {
    if n == 0 {
      assert Xor(0, 0) == 0;
    } else {
      var m, mk, x := Shift(high, n - 1), Shift(highK, n - 1), Shift(Xor(high, highK), n - 1);
      assert Shift(high, n) == 2 * m && Shift(highK, n) == 2 * mk && Shift(Xor(high, highK), n) == 2 * x;
      assert Shift(1, n) == 2 * Shift(1, n - 1);
      XorSplit(a / 2, k / 2, high, highK, n - 1);
      XorDouble(a, k, m, mk, x);
    }
  }

  lemma {:induction false} XorZero(a: nat)
    ensures Xor(a, 0) == a
  {
    if a != 0 {
      XorZero(a / 2);
    }
  }

  lemma {:induction false} XorCommutes(a: nat, b: nat)
    ensures Xor(a, b) == Xor(b, a)
    decreases a + b
  {
    if a != 0 || b != 0 {
      XorCommutes(a / 2, b / 2);
    }
  }

  /** What one key did only that key undoes. */
  lemma XorUndoneIff(a: nat, k: nat, l: nat)
    ensures Xor(Xor(a, k), l) == a <==> k == l
  {
    XorTwice(a, k);
    if Xor(Xor(a, k), l) == a {
      XorTwice(Xor(a, k), l);
      XorCommutes(a, k);
      XorCommutes(a, l);
      XorTwice(k, a);
      XorTwice(l, a);
    }
  }

  /** The number whose lowest byte is `low` and whose other bytes are those of `high`. */
  function Join(low: nat, high: nat): nat {
    low + 0x100 * high
  }

  lemma JoinParts(low: nat, high: nat)
    requires low < 0x100
    ensures Join(low, high) % 0x100 == low && Join(low, high) / 0x100 == high
  {
  }

  /** The unsigned int stored at four consecutive bytes, least significant byte first. */
  function Load(b: seq<Byte>): nat
    requires |b| == 4
  {
    Join(b[0], Join(b[1], Join(b[2], b[3])))
  }

  /** A word as it lies in memory; for a key, the keystream that repeats. */
  function Bytes(w: Word32): (b: seq<Byte>)
    ensures |b| == 4 && Load(b) == w
  {
    var w1 := w / 0x100;
    var w2 := w1 / 0x100;
    [w % 0x100, w1 % 0x100, w2 % 0x100, w2 / 0x100]
  }

  /** Different keys have different bytes. */
  lemma LoadInjective(a: seq<Byte>, b: seq<Byte>)
    requires |a| == 4 == |b| && Load(a) == Load(b)
    ensures a == b
  {
    JoinParts(a[0], Join(a[1], Join(a[2], a[3])));
    JoinParts(b[0], Join(b[1], Join(b[2], b[3])));
    JoinParts(a[1], Join(a[2], a[3]));
    JoinParts(b[1], Join(b[2], b[3]));
    JoinParts(a[2], a[3]);
    JoinParts(b[2], b[3]);
  }

  lemma LoadFits(b: seq<Byte>)
    requires |b| == 4
    ensures Load(b) < 0x1_0000_0000
  {
  }

  function XorByte(a: Byte, k: Byte): (r: Byte)
  {
    XorFits(a, k);
    Xor(a, k)
  }

  lemma XorFits(a: Byte, k: Byte)
    ensures Xor(a, k) < 256
  {
    ShiftByte(1);
    XorBound(a, k, 8);
  }

  lemma ShiftByte(h: nat)
    ensures Shift(h, 8) == 256 * h
  {
    assert Shift(h, 1) == 2 * Shift(h, 0);
    assert Shift(h, 3) == 4 * Shift(h, 1);
    assert Shift(h, 5) == 4 * Shift(h, 3);
    assert Shift(h, 7) == 4 * Shift(h, 5);
  }

  lemma XorJoin(a: Byte, k: Byte, high: nat, highK: nat)
    ensures Xor(Join(a, high), Join(k, highK)) == Join(XorByte(a, k), Xor(high, highK))
  {
    ShiftByte(1);
    ShiftByte(high);
    ShiftByte(highK);
    ShiftByte(Xor(high, highK));
    XorSplit(a, k, high, highK, 8);
  }

  /** Four bytes combined with the keystream from its start. */
  function XorFour(b: seq<Byte>, ks: seq<Byte>): (r: seq<Byte>)
    requires |b| == |ks| == 4
    ensures |r| == 4
  {
    [XorByte(b[0], ks[0]), XorByte(b[1], ks[1]), XorByte(b[2], ks[2]), XorByte(b[3], ks[3])]
  }

  /** ptr[i] ^ key on words is exclusive or of the bytes they are made of. */
  lemma XorWordByBytes(b: seq<Byte>, ks: seq<Byte>)
    requires |b| == |ks| == 4
    ensures Xor(Load(b), Load(ks)) == Load(XorFour(b, ks))
  {
    XorJoin(b[0], ks[0], Join(b[1], Join(b[2], b[3])), Join(ks[1], Join(ks[2], ks[3])));
    XorJoin(b[1], ks[1], Join(b[2], b[3]), Join(ks[2], ks[3]));
    XorJoin(b[2], ks[2], b[3], ks[3]);
  }

  /**
   What encrypting `length` bytes from `base` on means byte by byte: whole words only, the keystream starting over at
   `base`.
   */
  function Encrypted(s: seq<Byte>, base: nat, length: nat, ks: seq<Byte>): (r: seq<Byte>)
    requires base + length <= |s| && |ks| == 4
    ensures |r| == |s|
    ensures forall i :: 0 <= i < |s| ==>
              r[i] == if base <= i < base + length / 4 * 4 then XorByte(s[i], ks[(i - base) % 4]) else s[i]
  {
    seq(|s|, i requires 0 <= i < |s| =>
      if base <= i < base + length / 4 * 4 then XorByte(s[i], ks[(i - base) % 4]) else s[i])
  }

  /** `ks` are the bytes of the key.  The loop counter is an int, so at most 2^31 - 1 words can be counted. */
  method EncryptMemory(data: array<Byte>, base: nat, length: nat, key: Word32, ghost ks: seq<Byte>)
    requires base + length <= data.Length && length / 4 <= 0x7fff_ffff
    requires |ks| == 4 && Load(ks) == key
    modifies data
    ensures data[..] == Encrypted(old(data[..]), base, length, ks)
  {
    ghost var before := data[..];
    var numInts := length / 4;
    var i := 0;
    while i < numInts
      invariant 0 <= i <= numInts
      invariant data[..] == Encrypted(before, base, 4 * i, ks)
    {
      ghost var sofar := data[..];
      EncryptWord(data, base + 4 * i, key, ks);
      assert data[..] == Encrypted(sofar, base + 4 * i, 4, ks);
      WordExtends(before, base, i, ks);
      i := i + 1;
    }
    WholeWords(before, base, length, ks);
  }

  /** ptr[i] ^= key, for the word that starts at byte p. */
  method EncryptWord(data: array<Byte>, p: nat, key: Word32, ghost ks: seq<Byte>)
    requires p + 4 <= data.Length
    requires |ks| == 4 && Load(ks) == key
    modifies data
    ensures data[..] == Encrypted(old(data[..]), p, 4, ks)
  {
    var four := data[p..p + 4];
    ghost var before := data[..];
    XorWordByBytes(four, ks);
    LoadFits(XorFour(four, ks));
    StoreWord(data, p, Xor(Load(four), key), XorFour(four, ks));
    EncryptedWord(before, p, ks, data[..]);
  }

  /** Store a word whose bytes are b. */
  method StoreWord(data: array<Byte>, p: nat, w: Word32, ghost b: seq<Byte>)
    requires p + 4 <= data.Length && |b| == 4 && Load(b) == w
    modifies data
    ensures data[..] == old(data[..p]) + b + old(data[p + 4..])
  {
    JoinParts(b[0], Join(b[1], Join(b[2], b[3])));
    JoinParts(b[1], Join(b[2], b[3]));
    JoinParts(b[2], b[3]);
    var w1 := w / 0x100;
    var w2 := w1 / 0x100;
    var b0, b1, b2, b3 := w % 0x100, w1 % 0x100, w2 % 0x100, w2 / 0x100;
    assert [b0, b1, b2, b3] == b;
    data[p], data[p + 1], data[p + 2], data[p + 3] := b0, b1, b2, b3;
  }

  lemma EncryptedWord(s: seq<Byte>, p: nat, ks: seq<Byte>, r: seq<Byte>)
    requires p + 4 <= |s| && |ks| == 4
    requires r == s[..p] + XorFour(s[p..p + 4], ks) + s[p + 4..]
    ensures r == Encrypted(s, p, 4, ks)
  {
  }

  lemma WordExtends(s: seq<Byte>, base: nat, i: nat, ks: seq<Byte>)
    requires base + 4 * i + 4 <= |s| && |ks| == 4
    ensures Encrypted(Encrypted(s, base, 4 * i, ks), base + 4 * i, 4, ks) == Encrypted(s, base, 4 * (i + 1), ks)
  {
    assert 4 * i / 4 * 4 == 4 * i && 4 * (i + 1) / 4 * 4 == 4 * i + 4;
    var a, b := Encrypted(Encrypted(s, base, 4 * i, ks), base + 4 * i, 4, ks), Encrypted(s, base, 4 * (i + 1), ks);
    forall j | 0 <= j < |s| ensures a[j] == b[j] {
      if base + 4 * i <= j < base + 4 * i + 4 {
        assert (j - base) % 4 == (j - base - 4 * i) % 4;
      }
    }
  }

  lemma WholeWords(s: seq<Byte>, base: nat, length: nat, ks: seq<Byte>)
    requires base + length <= |s| && |ks| == 4
    ensures Encrypted(s, base, 4 * (length / 4), ks) == Encrypted(s, base, length, ks)
  {
    assert 4 * (length / 4) / 4 * 4 == length / 4 * 4;
  }

  method DecryptMemory(data: array<Byte>, base: nat, length: nat, key: Word32, ghost ks: seq<Byte>)
    requires base + length <= data.Length && length / 4 <= 0x7fff_ffff
    requires |ks| == 4 && Load(ks) == key
    modifies data
    ensures data[..] == Encrypted(old(data[..]), base, length, ks)
  {
    EncryptMemory(data, base, length, key, ks);
  }

  /** Decryption with the same key undoes encryption, for every length and key. */
  lemma DecryptUndoesEncrypt(s: seq<Byte>, base: nat, length: nat, ks: seq<Byte>)
    requires base + length <= |s| && |ks| == 4
    ensures Encrypted(Encrypted(s, base, length, ks), base, length, ks) == s
  {
    var r := Encrypted(Encrypted(s, base, length, ks), base, length, ks);
    forall i | 0 <= i < |s| ensures r[i] == s[i] {
      if base <= i < base + length / 4 * 4 {
        XorTwice(s[i], ks[(i - base) % 4]);
      }
    }
  }
}
