/**
 The socket transfer loops and the checksum (Assignment-3/stnc.c, sendFile,
 receiveFile, getMinimum and calculateChecksum).  The kernel decides how much
 each send takes and how much each recv brings.
 */
module SocketCopy {

  const BUFFER_SIZE: nat := 32768
  const INT_MAX: nat := 0x7fff_ffff

  type Byte = b: nat | b < 256

  function GetMinimum(a: int, b: int): (m: int)
    ensures m <= a && m <= b && (m == a || m == b)
  {
    if a < b then a else b
  }

  // ---------------------------------------------------------------- sending

  /** What send returns when asked for `offered` bytes; answers send cannot give are cut to those it can. */
  function Taken(kernel: (nat, nat) -> int, call: nat, offered: nat): (t: int)
    ensures -1 <= t <= offered
    ensures -1 <= kernel(call, offered) <= offered ==> t == kernel(call, offered)
  {
    var k := kernel(call, offered);
    if k < 0 then -1 else if k > offered then offered else k
  }

  function Flatten(pieces: seq<seq<Byte>>): seq<Byte> {
    if pieces == [] then [] else pieces[0] + Flatten(pieces[1..])
  }

  /** The buffers fread fills one after the other: the file cut into whole buffers and what is left at its end. */
  function Chunks(file: seq<Byte>): (c: seq<seq<Byte>>)
    ensures Flatten(c) == file
    ensures forall j :: 0 <= j < |c| ==> 0 < |c[j]| <= BUFFER_SIZE && (j < |c| - 1 ==> |c[j]| == BUFFER_SIZE)
  {
    if file == [] then []
    else if |file| <= BUFFER_SIZE then
      assert Flatten([file]) == file + Flatten([]);
      [file]
    else
      assert file == file[..BUFFER_SIZE] + file[BUFFER_SIZE..];
      [file[..BUFFER_SIZE]] + Chunks(file[BUFFER_SIZE..])
  }

  function Fread(file: seq<Byte>, position: nat): (buffer: seq<Byte>)
    requires position <= |file|
    ensures position + |buffer| <= |file| && buffer == file[position..position + |buffer|]
    ensures buffer == [] <==> position == |file|
  {
    if |file| - position <= BUFFER_SIZE then file[position..] else file[position..position + BUFFER_SIZE]
  }

  lemma ChunksStep(file: seq<Byte>, position: nat)
    requires position < |file|
    ensures var b := Fread(file, position); Chunks(file[position..]) == [b] + Chunks(file[position + |b|..])
  {
    var b, rest := Fread(file, position), file[position..];
    if |rest| > BUFFER_SIZE {
      assert rest[BUFFER_SIZE..] == file[position + BUFFER_SIZE..];
      assert rest[..BUFFER_SIZE] == b;
    }
  }

  /** What enters the connection when these buffers are sent after `call` other sends: the first failure ends it. */
  function Sent(chunks: seq<seq<Byte>>, kernel: (nat, nat) -> int, call: nat): (d: seq<Byte>)
    decreases |chunks|
  {
    if chunks == [] then []
    else
      var t := Taken(kernel, call, |chunks[0]|);
      if t < 0 then [] else chunks[0][..t] + Sent(chunks[1..], kernel, call + 1)
  }

  function Delivered(file: seq<Byte>, kernel: (nat, nat) -> int): seq<Byte> {
    Sent(Chunks(file), kernel, 0)
  }

  /** The kernel would take every buffer of the file whole. */
  predicate TakesAll(chunks: seq<seq<Byte>>, kernel: (nat, nat) -> int, call: nat) {
    forall j :: 0 <= j < |chunks| ==> Taken(kernel, call + j, |chunks[j]|) == |chunks[j]|
  }

  /** The kernel would fail none of the sends. */
  predicate FailsNone(chunks: seq<seq<Byte>>, kernel: (nat, nat) -> int, call: nat) {
    forall j :: 0 <= j < |chunks| ==> Taken(kernel, call + j, |chunks[j]|) >= 0
  }

  lemma TakesAllCons(chunks: seq<seq<Byte>>, kernel: (nat, nat) -> int, call: nat)
    requires chunks != []
    ensures TakesAll(chunks, kernel, call) <==>
            Taken(kernel, call, |chunks[0]|) == |chunks[0]| && TakesAll(chunks[1..], kernel, call + 1)
    ensures FailsNone(chunks, kernel, call) <==>
            Taken(kernel, call, |chunks[0]|) >= 0 && FailsNone(chunks[1..], kernel, call + 1)
  {
    var rest := chunks[1..];
    assert forall j :: 1 <= j < |chunks| ==> chunks[j] == rest[j - 1] && call + j == call + 1 + (j - 1);
    assert forall j :: 0 <= j < |rest| ==> rest[j] == chunks[j + 1] && call + 1 + j == call + (j + 1);
  }

  /** Whole buffers taken add up to everything, and one that is not loses at least a byte for good. */
  lemma {:induction false} SentIsAllIff(chunks: seq<seq<Byte>>, kernel: (nat, nat) -> int, call: nat)
    requires forall j :: 0 <= j < |chunks| ==> chunks[j] != []
    ensures if TakesAll(chunks, kernel, call) then Sent(chunks, kernel, call) == Flatten(chunks)
            else |Sent(chunks, kernel, call)| < |Flatten(chunks)|
    decreases |chunks|
  {
    if chunks != [] {
      SentIsAllIff(chunks[1..], kernel, call + 1);
      TakesAllCons(chunks, kernel, call);
    }
  }

  /**
   The file is delivered if and only if the kernel takes each of its buffers whole: fread has moved on past what a short
   send left over, so nothing sends it again.
   */
  lemma DeliveredIffTaken(file: seq<Byte>, kernel: (nat, nat) -> int)
    ensures Delivered(file, kernel) == file <==> TakesAll(Chunks(file), kernel, 0)
    ensures Delivered(file, kernel) == file || |Delivered(file, kernel)| < |file|
  {
    SentIsAllIff(Chunks(file), kernel, 0);
  }

  /** The first n sends succeed, and there are no more or the next one fails. */
  predicate SendsMade(chunks: seq<seq<Byte>>, kernel: (nat, nat) -> int, call: nat, n: nat) {
    && n <= |chunks|
    && (forall j :: 0 <= j < n ==> Taken(kernel, call + j, |chunks[j]|) >= 0)
    && (n < |chunks| ==> Taken(kernel, call + n, |chunks[n]|) < 0)
  }

  /** Of each buffer sent, the part the kernel took. */
  function TakenParts(chunks: seq<seq<Byte>>, kernel: (nat, nat) -> int, call: nat, n: nat): (parts: seq<seq<Byte>>)
    requires SendsMade(chunks, kernel, call, n)
  {
    seq(n, j requires 0 <= j < n => chunks[j][..Taken(kernel, call + j, |chunks[j]|)])
  }

  lemma SendsMadeRest(chunks: seq<seq<Byte>>, kernel: (nat, nat) -> int, call: nat, n: nat)
    requires SendsMade(chunks, kernel, call, n) && n > 0
    ensures SendsMade(chunks[1..], kernel, call + 1, n - 1)
    ensures TakenParts(chunks, kernel, call, n) ==
            [chunks[0][..Taken(kernel, call + 0, |chunks[0]|)]] + TakenParts(chunks[1..], kernel, call + 1, n - 1)
  {
    var rest := chunks[1..];
    forall j | 0 <= j < n - 1
      ensures call + 1 + j == call + (j + 1) && rest[j] == chunks[j + 1]
      ensures Taken(kernel, call + 1 + j, |rest[j]|) == Taken(kernel, call + (j + 1), |chunks[j + 1]|) >= 0
    {
    }
    assert n < |chunks| ==> rest[n - 1] == chunks[n] && call + 1 + (n - 1) == call + n;
  }

  lemma FlattenCons(piece: seq<Byte>, pieces: seq<seq<Byte>>)
    ensures Flatten([piece] + pieces) == piece + Flatten(pieces)
  {
    assert ([piece] + pieces)[1..] == pieces;
  }

  /** What is delivered is, of each buffer up to the first failure, the part that was taken. */
  lemma {:induction false} SentIsTakenParts(chunks: seq<seq<Byte>>, kernel: (nat, nat) -> int, call: nat, n: nat)
    requires SendsMade(chunks, kernel, call, n)
    ensures Sent(chunks, kernel, call) == Flatten(TakenParts(chunks, kernel, call, n))
    decreases n
  {
    if n > 0 {
      SendsMadeRest(chunks, kernel, call, n);
      SentIsTakenParts(chunks[1..], kernel, call + 1, n - 1);
      assert Taken(kernel, call + 0, |chunks[0]|) >= 0;
      FlattenCons(chunks[0][..Taken(kernel, call, |chunks[0]|)], TakenParts(chunks[1..], kernel, call + 1, n - 1));
    } else {
      assert TakenParts(chunks, kernel, call, 0) == [];
      assert chunks != [] ==> Taken(kernel, call + 0, |chunks[0]|) < 0;
    }
  }

  /** A kernel that fails no send but leaves a byte of each, if it can, loses data of any file of two bytes or more. */
  lemma ShortSendLosesData(file: seq<Byte>)
    requires |file| >= 2
    ensures var kernel := (call: nat, offered: nat) => if offered > 1 then offered - 1 else offered;
            FailsNone(Chunks(file), kernel, 0) && |Delivered(file, kernel)| < |file|
  {
    var kernel := (call: nat, offered: nat) => if offered > 1 then offered - 1 else offered;
    var chunks := Chunks(file);
    assert chunks != [];
    assert Taken(kernel, 0 + 0, |chunks[0]|) != |chunks[0]|;
    DeliveredIffTaken(file, kernel);
  }

  /** What was delivered is ahead of what the buffers yet to be sent add to it, and so with failures. */
  predicate Toward(rest: seq<seq<Byte>>, kernel: (nat, nat) -> int, call: nat, delivered: seq<Byte>,
                   goal: seq<Byte>, none: bool) {
    delivered + Sent(rest, kernel, call) == goal && (FailsNone(rest, kernel, call) <==> none)
  }

  lemma TowardStep(b: seq<Byte>, rest: seq<seq<Byte>>, kernel: (nat, nat) -> int, call: nat, delivered: seq<Byte>,
                   goal: seq<Byte>, none: bool)
    requires Toward([b] + rest, kernel, call, delivered, goal, none)
    ensures var t := Taken(kernel, call, |b|);
            if t < 0 then delivered == goal && !none
            else Toward(rest, kernel, call + 1, delivered + b[..t], goal, none)
  {
    SentCons(delivered, b, rest, kernel, call);
  }

  /** What holds at the head of the loop of sendFile. */
  predicate Progress(file: seq<Byte>, kernel: (nat, nat) -> int, position: nat, call: nat, delivered: seq<Byte>) {
    && |delivered| <= position <= |file|
    && Toward(Chunks(file[position..]), kernel, call, delivered,
              Delivered(file, kernel), FailsNone(Chunks(file), kernel, 0))
  }

  lemma ProgressStep(file: seq<Byte>, kernel: (nat, nat) -> int, position: nat, call: nat, delivered: seq<Byte>)
    requires Progress(file, kernel, position, call, delivered) && position < |file|
    ensures var b := Fread(file, position); var t := Taken(kernel, call, |b|);
            if t < 0 then delivered == Delivered(file, kernel) && !FailsNone(Chunks(file), kernel, 0)
            else Progress(file, kernel, position + |b|, call + 1, delivered + b[..t])
  {
    var b := Fread(file, position);
    ChunksStep(file, position);
    TowardStep(b, Chunks(file[position + |b|..]), kernel, call, delivered,
               Delivered(file, kernel), FailsNone(Chunks(file), kernel, 0));
  }

  lemma ProgressDone(file: seq<Byte>, kernel: (nat, nat) -> int, call: nat, delivered: seq<Byte>)
    requires Progress(file, kernel, |file|, call, delivered)
    ensures delivered == Delivered(file, kernel) && FailsNone(Chunks(file), kernel, 0)
  {
    assert file[|file|..] == [];
    assert delivered + [] == delivered;
  }

  lemma SentCons(d: seq<Byte>, b: seq<Byte>, rest: seq<seq<Byte>>, kernel: (nat, nat) -> int, call: nat)
    ensures var t := Taken(kernel, call, |b|);
            d + Sent([b] + rest, kernel, call) == if t < 0 then d else d + b[..t] + Sent(rest, kernel, call + 1)
    ensures FailsNone([b] + rest, kernel, call) <==> Taken(kernel, call, |b|) >= 0 && FailsNone(rest, kernel, call + 1)
  {
    TakesAllCons([b] + rest, kernel, call);
    assert ([b] + rest)[1..] == rest;
  }

  /** The loop of sendFile. */
  method SendFile(file: seq<Byte>, kernel: (nat, nat) -> int) returns (delivered: seq<Byte>, ok: bool)
    requires |file| <= INT_MAX
    ensures delivered == Delivered(file, kernel)
    ensures delivered == file <==> TakesAll(Chunks(file), kernel, 0)
    ensures ok <==> FailsNone(Chunks(file), kernel, 0)
    ensures |delivered| <= |file|
  {
    var fileSize := |file|;
    var position, totalBytesSent, call := 0, 0, 0;
    delivered, ok := [], true;
    assert file[0..] == file;
    while totalBytesSent < fileSize
      invariant totalBytesSent == |delivered| && Progress(file, kernel, position, call, delivered)
      decreases fileSize - position
    {
      var buffer := Fread(file, position);
      var bytesRead := |buffer|;
      if bytesRead <= 0 {
        break;
      }
      var bytesRemaining := fileSize - totalBytesSent;
      var bytesToSend := GetMinimum(bytesRead, bytesRemaining);
      assert bytesToSend == bytesRead;
      var bytesSent := Taken(kernel, call, bytesToSend);
      ProgressStep(file, kernel, position, call, delivered);
      if bytesSent < 0 {
        DeliveredIffTaken(file, kernel);
        return delivered, false;
      }
      delivered := delivered + buffer[..bytesSent];
      totalBytesSent := totalBytesSent + bytesSent;
      position, call := position + bytesRead, call + 1;
    }
    ProgressDone(file, kernel, call, delivered);
    DeliveredIffTaken(file, kernel);
  }

  // -------------------------------------------------------------- receiving

  /** What recv returns with `left` bytes still to come: an error, 0 at the end of the stream, or a fragment. */
  function Brought(kernel: (nat, nat) -> int, call: nat, left: nat): (b: int)
    ensures -1 <= b <= left && b <= BUFFER_SIZE
    ensures b == 0 <==> left == 0 && kernel(call, left) >= 0
    ensures kernel(call, left) < 0 ==> b == -1
    ensures 0 < kernel(call, left) <= GetMinimum(left, BUFFER_SIZE) ==> b == kernel(call, left)
  {
    var k := kernel(call, left);
    if k < 0 then -1
    else if left == 0 then 0
    else if k == 0 then 1
    else GetMinimum(k, GetMinimum(left, BUFFER_SIZE))
  }

  datatype Reception = Reception(total: nat, failed: bool)

  /** How far a receiver that has `total` of `length` bytes gets, and whether a recv fails on the way. */
  function Received(length: nat, fileSize: int, kernel: (nat, nat) -> int, call: nat, total: nat): (r: Reception)
    requires total <= length
    ensures total <= r.total <= length
    ensures if r.failed then r.total < fileSize else r.total >= fileSize || r.total == length
    ensures total < r.total ==> r.total < fileSize + BUFFER_SIZE
    decreases length - total
  {
    if total >= fileSize then Reception(total, false)
    else
      var b := Brought(kernel, call, length - total);
      if b <= 0 then Reception(total, b < 0) else Received(length, fileSize, kernel, call + 1, total + b)
  }

  /** How much n calls bring if each of them brings something. */
  function Gathered(length: nat, kernel: (nat, nat) -> int, n: nat): (g: nat)
    ensures g <= length
  {
    if n == 0 then 0
    else
      var g := Gathered(length, kernel, n - 1);
      var b := Brought(kernel, n - 1, length - g);
      if b > 0 then g + b else g
  }

  /** Call c is made: before it the receiver never had enough, and no call came back without data. */
  predicate Reached(length: nat, fileSize: int, kernel: (nat, nat) -> int, c: nat) {
    c == 0 ||
    var g := Gathered(length, kernel, c - 1);
    Reached(length, fileSize, kernel, c - 1) && g < fileSize && Brought(kernel, c - 1, length - g) > 0
  }

  lemma ReceivedStep(length: nat, fileSize: int, kernel: (nat, nat) -> int, call: nat, total: nat)
    requires total <= length && total < fileSize && Brought(kernel, call, length - total) > 0
    ensures Received(length, fileSize, kernel, call, total) ==
            Received(length, fileSize, kernel, call + 1, total + Brought(kernel, call, length - total))
  {
  }

  lemma {:induction false} ReceivedFrom(length: nat, fileSize: int, kernel: (nat, nat) -> int, c: nat)
    requires Reached(length, fileSize, kernel, c)
    ensures Received(length, fileSize, kernel, 0, 0) ==
            Received(length, fileSize, kernel, c, Gathered(length, kernel, c))
    decreases c
  {
    if c > 0 {
      var g := Gathered(length, kernel, c - 1);
      ReceivedFrom(length, fileSize, kernel, c - 1);
      ReceivedStep(length, fileSize, kernel, c - 1, g);
    }
  }

  /**
   The receiver keeps what the calls so far brought when it has enough, when the stream ends and when a recv fails, and
   it reports the failure in that last case alone.
   */
  lemma ReceiverStops(length: nat, fileSize: int, kernel: (nat, nat) -> int, c: nat)
    requires Reached(length, fileSize, kernel, c)
    ensures var g := Gathered(length, kernel, c);
            && (g >= fileSize ==> Received(length, fileSize, kernel, 0, 0) == Reception(g, false))
            && (g < fileSize && kernel(c, length - g) < 0 ==>
                  Received(length, fileSize, kernel, 0, 0) == Reception(g, true))
            && (g < fileSize && g == length && kernel(c, 0) >= 0 ==>
                  Received(length, fileSize, kernel, 0, 0) == Reception(g, false))
  {
    ReceivedFrom(length, fileSize, kernel, c);
  }

  /** recv never fails. */
  ghost predicate ErrorFree(kernel: (nat, nat) -> int) {
    forall call: nat, left: nat :: kernel(call, left) >= 0
  }

  lemma {:induction false} NeverFails(length: nat, fileSize: int, kernel: (nat, nat) -> int, call: nat, total: nat)
    requires total <= length
    ensures ErrorFree(kernel) ==> !Received(length, fileSize, kernel, call, total).failed
    decreases length - total
  {
    if total < fileSize {
      var b := Brought(kernel, call, length - total);
      if b > 0 {
        NeverFails(length, fileSize, kernel, call + 1, total + b);
      } else {
        assert ErrorFree(kernel) ==> kernel(call, length - total) >= 0;
      }
    }
  }

  /**
   The loop of receiveFile over whatever stream arrives: it writes the stream's first bytes in order, however recv
   fragments them, and unless recv fails it goes on to the announced size or the end of the stream.
   */
  method ReceiveFile(stream: seq<Byte>, fileSize: int, kernel: (nat, nat) -> int)
    returns (written: seq<Byte>, totalBytesRead: int, failed: bool)
    requires |stream| <= INT_MAX
    ensures totalBytesRead >= 0 && Reception(totalBytesRead, failed) == Received(|stream|, fileSize, kernel, 0, 0)
    ensures written == stream[..totalBytesRead]
    ensures ErrorFree(kernel) ==> !failed && (totalBytesRead >= fileSize || totalBytesRead == |stream|)
  {
    written, totalBytesRead, failed := [], 0, false;
    var call := 0;
    while totalBytesRead < fileSize
      invariant 0 <= totalBytesRead <= |stream| && written == stream[..totalBytesRead]
      invariant Received(|stream|, fileSize, kernel, call, totalBytesRead) ==
                Received(|stream|, fileSize, kernel, 0, 0)
      decreases |stream| - totalBytesRead
    {
      var bytesRead := Brought(kernel, call, |stream| - totalBytesRead);
      if bytesRead <= 0 {
        failed := bytesRead < 0;
        break;
      }
      written := written + stream[totalBytesRead..totalBytesRead + bytesRead];
      totalBytesRead := totalBytesRead + bytesRead;
      call := call + 1;
    }
    NeverFails(|stream|, fileSize, kernel, 0, 0);
  }

  /** A recv fails before the receiver of a connection on which `length` bytes arrive has what it waits for. */
  predicate Interrupted(length: nat, fileSize: int, kernel: (nat, nat) -> int) {
    Received(length, fileSize, kernel, 0, 0).failed
  }

  /**
   Sender and receiver together.  The copy is what was delivered unless a recv fails; it is the file if and only if the
   kernel takes every buffer whole and no recv fails, and short of that it is shorter.
   */
  method Transfer(file: seq<Byte>, sends: (nat, nat) -> int, recvs: (nat, nat) -> int)
    returns (copy: seq<Byte>, total: int, failed: bool)
    requires |file| <= INT_MAX
    ensures copy <= Delivered(file, sends) && total == |copy|
    ensures failed <==> Interrupted(|Delivered(file, sends)|, |file|, recvs)
    ensures !failed ==> copy == Delivered(file, sends)
    ensures copy == file <==> TakesAll(Chunks(file), sends, 0) && !failed
    ensures ErrorFree(recvs) ==> (copy == file <==> TakesAll(Chunks(file), sends, 0))
    ensures copy == file || total < |file|
  {
    var stream, ok := SendFile(file, sends);
    copy, total, failed := ReceiveFile(stream, |file|, recvs);
    DeliveredIffTaken(file, sends);
    assert stream[..|stream|] == stream;
  }

  // --------------------------------------------------------------- checksum

  const WORD: nat := 0x1_0000_0000

  /** (uint32_t)c for a signed char: bytes from 128 on are sign-extended. */
  function Widened(b: Byte): (w: nat)
    ensures w < WORD
  {
    if b < 128 then b else WORD - 256 + b
  }

  function Sum(file: seq<Byte>): nat {
    if file == [] then 0 else Sum(file[..|file| - 1]) + Widened(file[|file| - 1])
  }

  /** The sum of the widened bytes, as a 32-bit unsigned number. */
  function Checksum(file: seq<Byte>): (c: nat)
    ensures c < WORD
  {
    Sum(file) % WORD
  }

  lemma AddModulo(x: nat, y: nat)
    ensures (x % WORD + y) % WORD == (x + y) % WORD
  {
  }

  lemma SumSnoc(file: seq<Byte>, n: nat)
    requires n < |file|
    ensures Sum(file[..n + 1]) == Sum(file[..n]) + Widened(file[n])
  {
    assert file[..n + 1][..n] == file[..n];
  }

  /** calculateChecksum: reads until fread comes up short, whatever the size of its buffer. */
  method CalculateChecksum(file: seq<Byte>, chunkSize: nat) returns (checksum: nat)
    requires chunkSize > 0
    ensures checksum == Checksum(file)
  {
    checksum := 0;
    var position := 0;
    var eof := false;
    while !eof
      invariant 0 <= position <= |file| && checksum == Sum(file[..position]) % WORD
      invariant eof ==> position == |file|
      decreases !eof, |file| - position
    {
      var bytesRead := GetMinimum(chunkSize, |file| - position);
      eof := bytesRead < chunkSize;
      for i := 0 to bytesRead
        invariant checksum == Sum(file[..position + i]) % WORD
      {
        SumSnoc(file, position + i);
        AddModulo(Sum(file[..position + i]), Widened(file[position + i]));
        checksum := (checksum + Widened(file[position + i])) % WORD;
      }
      position := position + bytesRead;
    }
    assert file[..|file|] == file;
  }

  /** The sum of the bytes as they are, and how many of them are negative as signed characters. */
  function PlainSum(file: seq<Byte>): nat {
    if file == [] then 0 else file[0] + PlainSum(file[1..])
  }

  function Negatives(file: seq<Byte>): nat {
    if file == [] then 0 else (if file[0] >= 128 then 1 else 0) + Negatives(file[1..])
  }

  lemma {:induction false} SumIsPlain(file: seq<Byte>)
    ensures Sum(file) == PlainSum(file) + (WORD - 256) * Negatives(file)
    decreases |file|
  {
    if file != [] {
      SumIsPlain(file[1..]);
      SumConcat([file[0]], file[1..]);
      assert [file[0]] + file[1..] == file;
      assert Sum([file[0]]) == Sum([]) + Widened(file[0]);
    }
  }

  lemma CutMultiples(x: int, n: nat)
    ensures (x + WORD * n) % WORD == x % WORD
  {
  }

  /** The checksum is the plain sum less 256 for each byte from 128 on, modulo 2^32. */
  lemma ChecksumOfSignedBytes(file: seq<Byte>)
    ensures Checksum(file) == (PlainSum(file) - 256 * Negatives(file)) % WORD
  {
    SumIsPlain(file);
    CutMultiples(PlainSum(file) - 256 * Negatives(file), Negatives(file));
  }

  /** Changing one byte of a file always changes its checksum. */
  lemma OneByteShows(file: seq<Byte>, i: nat, b: Byte)
    requires i < |file| && b != file[i]
    ensures Checksum(file[i := b]) != Checksum(file)
  {
    var before, behind := file[..i], file[i + 1..];
    assert file == before + ([file[i]] + behind) && file[i := b] == before + ([b] + behind);
    SumConcat(before, [file[i]] + behind);
    SumConcat(before, [b] + behind);
    SumConcat([file[i]], behind);
    SumConcat([b], behind);
    SumIsPlain([b]);
    SumIsPlain([file[i]]);
    assert [b][1..] == [] && [file[i]][1..] == [];
    DifferentResidues(Sum(before) + Sum(behind), Sum([b]), Sum([file[i]]));
  }

  lemma DifferentResidues(x: nat, y: nat, z: nat)
    requires y < WORD && z < WORD && y != z
    ensures (x + y) % WORD != (x + z) % WORD
  {
  }

  lemma {:induction false} SumConcat(a: seq<Byte>, b: seq<Byte>)
    ensures Sum(a + b) == Sum(a) + Sum(b)
    decreases |b|
  {
    if b == [] {
      assert a + b == a;
    } else {
      var n := |b| - 1;
      SumConcat(a, b[..n]);
      var whole := a + b;
      assert whole[..|whole| - 1] == a + b[..n] && whole[|whole| - 1] == b[n];
    }
  }

  /** The checksum of a file is that of its parts, added: where it is cut does not matter. */
  lemma ChecksumConcat(a: seq<Byte>, b: seq<Byte>)
    ensures Checksum(a + b) == (Checksum(a) + Checksum(b)) % WORD
  {
    SumConcat(a, b);
    AddModulo(Sum(a), Sum(b));
    AddModulo(Sum(b), Checksum(a));
  }

  /** Swapping two parts of a file goes unnoticed. */
  lemma ChecksumIgnoresOrder(a: seq<Byte>, b: seq<Byte>)
    ensures Checksum(a + b) == Checksum(b + a)
  {
    SumConcat(a, b);
    SumConcat(b, a);
  }
}
