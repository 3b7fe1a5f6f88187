/**
 The encrypted page behind the character device (Assignment-6/char_device.c).
 The buffer holds ciphertext; its plaintext is the buffer combined with the
 repeated key, and is never stored.
 */
module CharDevice {
  import opened Encryption

  const PAGE_SIZE: nat := 4096

  /** The globals memory_buffer and key; `ks` are the bytes of the key. */
  datatype Store = Store(buffer: seq<Byte>, ks: seq<Byte>)

  predicate WellFormed(d: Store) {
    |d.buffer| == PAGE_SIZE && |d.ks| == 4
  }

  /** The buffer combined with the repeated current key. */
  function Plain(d: Store): (p: seq<Byte>)
    requires WellFormed(d)
    ensures |p| == PAGE_SIZE
  {
    Encrypted(d.buffer, 0, PAGE_SIZE, d.ks)
  }

  function Splice(s: seq<Byte>, at: nat, bytes: seq<Byte>): (r: seq<Byte>)
    requires at + |bytes| <= |s|
    ensures |r| == |s|
    ensures forall i :: 0 <= i < |s| ==> r[i] == if at <= i < at + |bytes| then bytes[i - at] else s[i]
  {
    s[..at] + bytes + s[at + |bytes|..]
  }

  /** What the ioctl does: decrypt with the old key, encrypt with the new one. */
  function Rekeyed(d: Store, ks: seq<Byte>): (r: Store)
    requires WellFormed(d) && |ks| == 4
    ensures WellFormed(r)
  {
    if ks == d.ks then d else Store(Encrypted(Plain(d), 0, PAGE_SIZE, ks), ks)
  }

  /** What a write does: the user's bytes go into the buffer and are then encrypted where they lie. */
  function Written(d: Store, at: nat, bytes: seq<Byte>): (r: Store)
    requires WellFormed(d) && at + |bytes| <= PAGE_SIZE
    ensures WellFormed(r) && r.ks == d.ks
    ensures forall i :: 0 <= i < PAGE_SIZE ==>
              r.buffer[i] == if !(at <= i < at + |bytes|) then d.buffer[i]
                             else if i < at + |bytes| / 4 * 4 then XorByte(bytes[i - at], d.ks[(i - at) % 4])
                             else bytes[i - at]
  {
    Store(Encrypted(Splice(d.buffer, at, bytes), at, |bytes|, d.ks), d.ks)
  }

  /**
   `int n = length`, capped: the comparison with PAGE_SIZE, an unsigned long, makes a negative n count as large.
   */
  function ByteCount(length: nat): (n: nat)
    ensures n <= PAGE_SIZE
    ensures length <= PAGE_SIZE ==> n == length
    ensures length % 0x1_0000_0000 > PAGE_SIZE ==> n == PAGE_SIZE
    ensures length % 0x1_0000_0000 <= PAGE_SIZE ==> n == length % 0x1_0000_0000
  {
    var low := length % 0x1_0000_0000;
    if low > PAGE_SIZE then PAGE_SIZE else low
  }

  // --------------------------------------------------------------- the device

  datatype Reply = Done(count: nat, offset: nat) | EFault

  /** memcpy into the middle of an array. */
  method CopyIn(memory: array<Byte>, at: nat, bytes: seq<Byte>)
    requires at + |bytes| <= memory.Length
    modifies memory
    ensures memory[..] == Splice(old(memory[..]), at, bytes)
  {
    ghost var before := memory[..];
    for i := 0 to |bytes|
      invariant memory[..] == Splice(before, at, bytes[..i])
    {
      memory[at + i] := bytes[i];
    }
    assert bytes[..|bytes|] == bytes;
  }

  class Device {
    const memory: array<Byte>
    var key: Word32
    ghost var ks: seq<Byte>

    ghost predicate Valid()
      reads this, memory
    {
      memory.Length == PAGE_SIZE && |ks| == 4 && Load(ks) == key
    }

    ghost function State(): (d: Store)
      requires Valid()
      reads this, memory
      ensures WellFormed(d)
    {
      Store(memory[..], ks)
    }

    /** The end of char_device_init: `scrap` is what kmalloc's memory held. */
    constructor (scrap: seq<Byte>)
      requires |scrap| == PAGE_SIZE
      ensures Valid() && fresh(memory) && key == 0 && Plain(State()) == scrap && State().buffer == scrap
    {
      memory := new Byte[PAGE_SIZE](i requires 0 <= i < PAGE_SIZE => scrap[i]);
      key := 0;
      ks := [0, 0, 0, 0];
      new;
      assert memory[..] == scrap;
      ZeroKey(scrap);
      EncryptMemory(memory, 0, PAGE_SIZE, key, ks);
    }

    /** device_read at `offset`; `fault` says whether copy_to_user fails. */
    method Read(length: nat, offset: nat, fault: bool) returns (r: Reply, bytes: seq<Byte>)
      requires Valid() && offset + ByteCount(length) <= PAGE_SIZE
      ensures fault ==> r == EFault
      ensures !fault ==> r == Done(ByteCount(length), offset + ByteCount(length))
      ensures !fault ==> |bytes| == ByteCount(length) && forall i :: 0 <= i < |bytes| ==> bytes[i] == memory[offset + i]
      ensures !fault ==> bytes == State().buffer[offset..offset + ByteCount(length)]
    {
      var n := ByteCount(length);
      if fault {
        return EFault, [];
      }
      bytes := memory[offset..offset + n];
      r := Done(n, offset + n);
    }

    /**
     device_write at `offset` of the first ByteCount(length) bytes the user passed.  When copy_from_user faults, the
     bytes in `landed` are what it left in their place, unencrypted.
     */
    method Write(length: nat, user: seq<Byte>, offset: nat, fault: bool, landed: seq<Byte>) returns (r: Reply)
      requires Valid() && |user| == |landed| == ByteCount(length) && offset + ByteCount(length) <= PAGE_SIZE
      modifies memory
      ensures Valid()
      ensures fault ==> r == EFault && State() == old(State()).(buffer := Splice(old(State()).buffer, offset, landed))
      ensures !fault ==> r == Done(|user|, offset + |user|) && State() == Written(old(State()), offset, user)
      ensures !fault ==>
                forall i :: 0 <= i < PAGE_SIZE ==>
                  memory[i] == if !(offset <= i < offset + |user|) then old(memory[i])
                               else if i < offset + |user| / 4 * 4 then XorByte(user[i - offset], ks[(i - offset) % 4])
                               else user[i - offset]
    {
      var n := ByteCount(length);
      CopyIn(memory, offset, if fault then landed else user);
      if fault {
        return EFault;
      }
      EncryptMemory(memory, offset, n, key, ks);
      r := Done(n, offset + n);
    }

    /** device_ioctl; `newKs` are the bytes of the new key.  Any command but IOCTL_SET_KEY is refused. */
    method Ioctl(isSetKey: bool, newKey: Word32, ghost newKs: seq<Byte>) returns (known: bool)
      requires Valid() && |newKs| == 4 && Load(newKs) == newKey
      modifies this, memory
      ensures Valid() && known == isSetKey
      ensures known ==> key == newKey && State() == Rekeyed(old(State()), newKs)
      ensures !known ==> State() == old(State())
    {
      if !isSetKey {
        return false;
      }
      known := true;
      if newKey == key {
        LoadInjective(ks, newKs);
      } else {
        DecryptMemory(memory, 0, PAGE_SIZE, key, ks);
        key := newKey;
        ks := newKs;
        EncryptMemory(memory, 0, PAGE_SIZE, key, ks);
      }
    }
  }

  lemma ZeroKey(s: seq<Byte>)
    requires |s| == PAGE_SIZE
    ensures Encrypted(s, 0, PAGE_SIZE, [0, 0, 0, 0]) == s
  {
    forall i | 0 <= i < |s| ensures Encrypted(s, 0, PAGE_SIZE, [0, 0, 0, 0])[i] == s[i] {
      XorZero(s[i]);
    }
  }

  // ------------------------------------------------------------ the plaintext

  /** The buffer is the plaintext encrypted with the current key. */
  lemma BufferFromPlain(d: Store)
    requires WellFormed(d)
    ensures d.buffer == Encrypted(Plain(d), 0, PAGE_SIZE, d.ks)
  {
    DecryptUndoesEncrypt(d.buffer, 0, PAGE_SIZE, d.ks);
  }

  lemma RekeyKeepsPlain(d: Store, ks: seq<Byte>)
    requires WellFormed(d) && |ks| == 4
    ensures Plain(Rekeyed(d, ks)) == Plain(d)
  {
    DecryptUndoesEncrypt(Plain(d), 0, PAGE_SIZE, ks);
  }

  /** Two stores with the same key and the same plaintext are the same. */
  lemma PlainDetermines(d: Store, e: Store)
    requires WellFormed(d) && WellFormed(e) && d.ks == e.ks && Plain(d) == Plain(e)
    ensures d == e
  {
    BufferFromPlain(d);
    BufferFromPlain(e);
  }

  function RekeyedAll(d: Store, keys: seq<seq<Byte>>): (r: Store)
    requires WellFormed(d) && forall i :: 0 <= i < |keys| ==> |keys[i]| == 4
    ensures WellFormed(r)
    decreases |keys|
  {
    if keys == [] then d else RekeyedAll(Rekeyed(d, keys[0]), keys[1..])
  }

  lemma {:induction false} RekeyAllKeepsPlain(d: Store, keys: seq<seq<Byte>>)
    requires WellFormed(d) && forall i :: 0 <= i < |keys| ==> |keys[i]| == 4
    ensures Plain(RekeyedAll(d, keys)) == Plain(d)
    ensures RekeyedAll(d, keys).ks == if keys == [] then d.ks else keys[|keys| - 1]
    decreases |keys|
  {
    if keys != [] {
      RekeyKeepsPlain(d, keys[0]);
      RekeyAllKeepsPlain(Rekeyed(d, keys[0]), keys[1..]);
    }
  }

  /** Any chain of key changes leaves what one change to its last key leaves; back at the first key, nothing changed. */
  lemma KeyChainCollapses(d: Store, keys: seq<seq<Byte>>)
    requires WellFormed(d) && keys != [] && forall i :: 0 <= i < |keys| ==> |keys[i]| == 4
    ensures RekeyedAll(d, keys) == Rekeyed(d, keys[|keys| - 1])
    ensures keys[|keys| - 1] == d.ks ==> RekeyedAll(d, keys) == d
  {
    RekeyAllKeepsPlain(d, keys);
    RekeyKeepsPlain(d, keys[|keys| - 1]);
    PlainDetermines(RekeyedAll(d, keys), Rekeyed(d, keys[|keys| - 1]));
  }

  // --------------------------------------------------- which writes are sound

  /** The key byte a write of `count` bytes at `at` uses for byte i, none behind its whole words, is the page's. */
  predicate KeyFitsAt(ks: seq<Byte>, at: nat, count: nat, i: nat)
    requires |ks| == 4
  {
    at <= i < at + count ==> ks[i % 4] == if i < at + count / 4 * 4 then ks[(i - at) % 4] else 0
  }

  predicate KeyFits(ks: seq<Byte>, at: nat, count: nat)
    requires |ks| == 4
  {
    forall i: nat :: i < at + count ==> KeyFitsAt(ks, at, count, i)
  }

  lemma WrittenByte(d: Store, at: nat, bytes: seq<Byte>, i: nat)
    requires WellFormed(d) && at + |bytes| <= PAGE_SIZE && i < PAGE_SIZE
    ensures Plain(Written(d, at, bytes))[i] == Splice(Plain(d), at, bytes)[i] <==> KeyFitsAt(d.ks, at, |bytes|, i)
  {
    if at <= i < at + |bytes| {
      var b := bytes[i - at];
      if i < at + |bytes| / 4 * 4 {
        XorUndoneIff(b, d.ks[(i - at) % 4], d.ks[i % 4]);
      } else {
        XorZero(b);
        XorUndoneIff(b, 0, d.ks[i % 4]);
      }
    }
  }

  /** A write puts exactly its bytes into the plaintext if and only if the key in force fits it. */
  lemma WriteSoundIffKeyFits(d: Store, at: nat, bytes: seq<Byte>)
    requires WellFormed(d) && at + |bytes| <= PAGE_SIZE
    ensures Plain(Written(d, at, bytes)) == Splice(Plain(d), at, bytes) <==> KeyFits(d.ks, at, |bytes|)
  {
    var a, b := Plain(Written(d, at, bytes)), Splice(Plain(d), at, bytes);
    forall i: nat | i < PAGE_SIZE ensures a[i] == b[i] <==> KeyFitsAt(d.ks, at, |bytes|, i) {
      WrittenByte(d, at, bytes, i);
    }
    if KeyFits(d.ks, at, |bytes|) {
      assert forall i: nat :: i < PAGE_SIZE ==> KeyFitsAt(d.ks, at, |bytes|, i);
    }
  }

  /** A write of whole words at a word boundary, or of nothing. */
  predicate Aligned(at: nat, count: nat) {
    count == 0 || (at % 4 == 0 && count % 4 == 0)
  }

  lemma AlignedFits(ks: seq<Byte>, at: nat, count: nat)
    requires |ks| == 4 && Aligned(at, count)
    ensures KeyFits(ks, at, count)
  {
    forall i: nat | i < at + count ensures KeyFitsAt(ks, at, count, i) {
      if at <= i {
        assert i % 4 == (i - at) % 4;
      }
    }
  }

  lemma MisalignedMisfits(at: nat, count: nat) returns (ks: seq<Byte>)
    requires !Aligned(at, count)
    ensures |ks| == 4 && !KeyFits(ks, at, count)
  {
    if count >= 4 && at % 4 != 0 {
      ks := [1, 0, 0, 0];
      assert !KeyFitsAt(ks, at, count, at);
    } else {
      ks := [1, 1, 1, 1];
      assert !KeyFitsAt(ks, at, count, at + count / 4 * 4);
    }
  }

  /** A write of given place and length is sound under every key if and only if it is aligned. */
  lemma WriteSoundIffAligned(buffer: seq<Byte>, at: nat, bytes: seq<Byte>)
    requires |buffer| == PAGE_SIZE && at + |bytes| <= PAGE_SIZE
    ensures Aligned(at, |bytes|) <==>
            forall ks: seq<Byte> :: |ks| == 4 ==>
              Plain(Written(Store(buffer, ks), at, bytes)) == Splice(Plain(Store(buffer, ks)), at, bytes)
  {
    forall ks: seq<Byte> | |ks| == 4
      ensures Plain(Written(Store(buffer, ks), at, bytes)) == Splice(Plain(Store(buffer, ks)), at, bytes) <==>
              KeyFits(ks, at, |bytes|)
      ensures Aligned(at, |bytes|) ==> KeyFits(ks, at, |bytes|)
    {
      WriteSoundIffKeyFits(Store(buffer, ks), at, bytes);
      if Aligned(at, |bytes|) {
        AlignedFits(ks, at, |bytes|);
      }
    }
    if !Aligned(at, |bytes|) {
      var ks := MisalignedMisfits(at, |bytes|);
    }
  }

  // ------------------------------------------------------------------- runs

  datatype Op = ReadOp | SetKeyOp(ks: seq<Byte>) | WriteOp(at: nat, bytes: seq<Byte>)

  predicate InBounds(op: Op) {
    match op
    case ReadOp => true
    case SetKeyOp(ks) => |ks| == 4
    case WriteOp(at, bytes) => at + |bytes| <= PAGE_SIZE
  }

  function Perform(d: Store, op: Op): (r: Store)
    requires WellFormed(d) && InBounds(op)
    ensures WellFormed(r)
  {
    match op
    case ReadOp => d
    case SetKeyOp(ks) => Rekeyed(d, ks)
    case WriteOp(at, bytes) => Written(d, at, bytes)
  }

  /** The same on a page in the clear, on which keys have no effect. */
  function PerformClear(p: seq<Byte>, op: Op): (r: seq<Byte>)
    requires |p| == PAGE_SIZE && InBounds(op)
    ensures |r| == PAGE_SIZE
  {
    if op.WriteOp? then Splice(p, op.at, op.bytes) else p
  }

  /** All along the run the plaintext is the page p that undergoes the same operations in the clear. */
  predicate Follows(d: Store, p: seq<Byte>, ops: seq<Op>)
    requires WellFormed(d) && |p| == PAGE_SIZE && forall i :: 0 <= i < |ops| ==> InBounds(ops[i])
    decreases |ops|
  {
    && Plain(d) == p
    && d.buffer == Encrypted(p, 0, PAGE_SIZE, d.ks)
    && (ops == [] || Follows(Perform(d, ops[0]), PerformClear(p, ops[0]), ops[1..]))
  }

  /** The key in force fits every write when its turn comes. */
  predicate KeysFit(ks: seq<Byte>, ops: seq<Op>)
    requires |ks| == 4 && forall i :: 0 <= i < |ops| ==> InBounds(ops[i])
    decreases |ops|
  {
    ops == [] ||
    (assert InBounds(ops[0]);
     match ops[0]
     case ReadOp => KeysFit(ks, ops[1..])
     case SetKeyOp(next) => KeysFit(next, ops[1..])
     case WriteOp(at, bytes) => KeyFits(ks, at, |bytes|) && KeysFit(ks, ops[1..]))
  }

  /** An operation carries the plaintext along exactly if it is no write or the key fits it. */
  lemma StepFollows(d: Store, op: Op)
    requires WellFormed(d) && InBounds(op)
    ensures Plain(Perform(d, op)) == PerformClear(Plain(d), op) <==>
            (op.WriteOp? ==> KeyFits(d.ks, op.at, |op.bytes|))
  {
    match op
    case ReadOp =>
    case SetKeyOp(ks) => RekeyKeepsPlain(d, ks);
    case WriteOp(at, bytes) => WriteSoundIffKeyFits(d, at, bytes);
  }

  /** A run is that of one page in the clear, stored under the current key, if and only if each write fits its key. */
  lemma {:induction false} RunFollowsIffKeysFit(d: Store, ops: seq<Op>)
    requires WellFormed(d) && forall i :: 0 <= i < |ops| ==> InBounds(ops[i])
    ensures Follows(d, Plain(d), ops) <==> KeysFit(d.ks, ops)
    decreases |ops|
  {
    BufferFromPlain(d);
    if ops != [] {
      StepFollows(d, ops[0]);
      RunFollowsIffKeysFit(Perform(d, ops[0]), ops[1..]);
    }
  }

  /** Aligned writes are followed under all keys: every run of them, reads and key changes has one plaintext. */
  lemma {:induction false} RunFollowsClearPage(d: Store, ops: seq<Op>)
    requires WellFormed(d) && forall i :: 0 <= i < |ops| ==> InBounds(ops[i])
    requires forall i :: 0 <= i < |ops| && ops[i].WriteOp? ==> Aligned(ops[i].at, |ops[i].bytes|)
    ensures Follows(d, Plain(d), ops)
    decreases |ops|
  {
    BufferFromPlain(d);
    if ops != [] {
      if ops[0].WriteOp? {
        AlignedFits(d.ks, ops[0].at, |ops[0].bytes|);
      }
      StepFollows(d, ops[0]);
      RunFollowsClearPage(Perform(d, ops[0]), ops[1..]);
    }
  }
}
