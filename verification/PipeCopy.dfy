/**
 Copying a file through a pipe or a FIFO between two processes
 (Assignment-3/stnc.c, copyFilePipe, sendFileFifo and receiveFileFifo).  The
 kernel picks how many bytes each read returns and in what pieces a write
 enters the pipe; a read finds end of file only when the pipe is empty and every
 write end is closed.
 */
module PipeCopy {

  const BUFFER_SIZE: nat := 32768
  const INT_MAX: nat := 0x7fff_ffff

  type Bytes = seq<nat>

  /** The sending process: about to test its loop and read, writing what it read, or done with both ends closed. */
  datatype Writer = Reading | Writing(buffer: Bytes) | WriterClosed

  /** The receiving process: in copyFilePipe it first closes its own write end. */
  datatype Reader = Closing | Waiting | Storing(buffer: Bytes) | ReaderDone

  datatype State = State(
    unread: Bytes,
    total: nat,
    writer: Writer,
    pipe: Bytes,
    reader: Reader,
    ownEndOpen: bool,
    stored: Bytes)

  /** `bySize` is the loop of copyFilePipe, which counts up to the file size; sendFileFifo reads until end of file. */
  datatype Setting = Setting(source: Bytes, capacity: nat, bySize: bool)

  datatype Step =
    | ReadSource(n: nat) | CloseWriter | FillPipe(n: nat)
    | CloseOwnEnd | ReadPipe(n: nat) | Store | FindEnd

  predicate SettingOk(c: Setting) {
    0 < c.capacity && |c.source| <= INT_MAX
  }

  function Start(c: Setting): State {
    State(c.source, 0, Reading, [], if c.bySize then Closing else Waiting, c.bySize, [])
  }

  function Min(a: nat, b: nat): nat {
    if a < b then a else b
  }

  /** The loop condition of the sender. */
  predicate WantsMore(c: Setting, s: State) {
    c.bySize ==> s.total < |c.source|
  }

  predicate Enabled(c: Setting, s: State, step: Step) {
    match step
    case ReadSource(n) => s.writer.Reading? && WantsMore(c, s) && 0 < n <= Min(BUFFER_SIZE, |s.unread|)
    case CloseWriter => s.writer.Reading? && (WantsMore(c, s) ==> s.unread == [])
    case FillPipe(n) => s.writer.Writing? && 0 < n <= |s.writer.buffer| && |s.pipe| + n <= c.capacity
    case CloseOwnEnd => s.reader.Closing?
    case ReadPipe(n) => s.reader.Waiting? && 0 < n <= Min(BUFFER_SIZE, |s.pipe|)
    case Store => s.reader.Storing?
    case FindEnd => s.reader.Waiting? && s.pipe == [] && s.writer.WriterClosed? && !s.ownEndOpen
  }

  function Next(c: Setting, s: State, step: Step): State
    requires Enabled(c, s, step)
  {
    match step
    case ReadSource(n) => s.(unread := s.unread[n..], total := s.total + n, writer := Writing(s.unread[..n]))
    case CloseWriter => s.(writer := WriterClosed)
    case FillPipe(n) =>
      var rest := s.writer.buffer[n..];
      s.(pipe := s.pipe + s.writer.buffer[..n], writer := if rest == [] then Reading else Writing(rest))
    case CloseOwnEnd => s.(reader := Waiting, ownEndOpen := false)
    case ReadPipe(n) => s.(pipe := s.pipe[n..], reader := Storing(s.pipe[..n]))
    case Store => s.(stored := s.stored + s.reader.buffer, reader := Waiting)
    case FindEnd => s.(reader := ReaderDone)
  }

  ghost predicate IsRun(c: Setting, s: State, steps: seq<Step>)
    decreases |steps|
  {
    steps == [] || (Enabled(c, s, steps[0]) && IsRun(c, Next(c, s, steps[0]), steps[1..]))
  }

  ghost function After(c: Setting, s: State, steps: seq<Step>): State
    requires IsRun(c, s, steps)
    decreases |steps|
  {
    if steps == [] then s else After(c, Next(c, s, steps[0]), steps[1..])
  }

  // ------------------------------------------------------------ invariant

  function WriterBuffer(s: State): Bytes {
    if s.writer.Writing? then s.writer.buffer else []
  }

  function ReaderBuffer(s: State): Bytes {
    if s.reader.Storing? then s.reader.buffer else []
  }

  /** All bytes in transit, from the destination back to the source. */
  function InTransit(s: State): Bytes {
    s.stored + ReaderBuffer(s) + s.pipe + WriterBuffer(s) + s.unread
  }

  predicate Inv(c: Setting, s: State) {
    && InTransit(s) == c.source
    && s.total + |s.unread| == |c.source|
    && |s.pipe| <= c.capacity
    && (s.writer.Writing? ==> s.writer.buffer != [])
    && (s.reader.Storing? ==> s.reader.buffer != [])
    && (s.writer.WriterClosed? ==> s.unread == [])
    && (s.reader.ReaderDone? ==> s.writer.WriterClosed? && s.pipe == [])
    && (s.reader.Closing? ==> s.ownEndOpen)
    && (s.reader.ReaderDone? ==> !s.ownEndOpen)
  }

  /** The reader has gone on to its loop with its own write end open, which copyFilePipe avoids. */
  predicate LeftOpen(s: State) {
    s.ownEndOpen && !s.reader.Closing?
  }

  lemma SplitAfter(p: Bytes, b: Bytes, n: nat)
    requires n <= |b|
    ensures p + b[..n] + b[n..] == p + [] + b
  {
    assert b == b[..n] + b[n..];
  }

  lemma MoveAcross(p: Bytes, a: Bytes, b: Bytes, n: nat)
    requires n <= |b|
    ensures p + (a + b[..n]) + b[n..] == p + a + b
  {
    assert b == b[..n] + b[n..];
  }

  lemma StepKeepsTransit(c: Setting, s: State, step: Step)
    requires Enabled(c, s, step)
    ensures InTransit(Next(c, s, step)) == InTransit(s)
  {
    match step
    case ReadSource(n) => SplitAfter(s.stored + ReaderBuffer(s) + s.pipe, s.unread, n);
    case FillPipe(n) => MoveAcross(s.stored + ReaderBuffer(s), s.pipe, s.writer.buffer, n);
    case ReadPipe(n) => SplitAfter(s.stored, s.pipe, n);
    case Store => assert s.stored + s.reader.buffer + [] == s.stored + s.reader.buffer;
    case _ =>
  }

  lemma StepKeeps(c: Setting, s: State, step: Step)
    requires Inv(c, s) && Enabled(c, s, step)
    ensures Inv(c, Next(c, s, step)) && LeftOpen(Next(c, s, step)) == LeftOpen(s)
  {
    StepKeepsTransit(c, s, step);
  }

  lemma {:induction false} RunKeeps(c: Setting, s: State, steps: seq<Step>)
    requires Inv(c, s) && IsRun(c, s, steps)
    ensures Inv(c, After(c, s, steps)) && LeftOpen(After(c, s, steps)) == LeftOpen(s)
    decreases |steps|
  {
    if steps != [] {
      StepKeeps(c, s, steps[0]);
      RunKeeps(c, Next(c, s, steps[0]), steps[1..]);
    }
  }

  // ---------------------------------------------------------- termination

  /** Each byte moves four times, and each process has its closing steps. */
  function Measure(s: State): nat {
    4 * |s.unread| + 3 * |WriterBuffer(s)| + 2 * |s.pipe| + |ReaderBuffer(s)|
    + (if s.writer.WriterClosed? then 0 else 1)
    + (if s.reader.ReaderDone? then 0 else 1) + (if s.reader.Closing? then 1 else 0)
  }

  lemma StepDecreases(c: Setting, s: State, step: Step)
    requires Inv(c, s) && Enabled(c, s, step)
    ensures Measure(Next(c, s, step)) < Measure(s)
  {
  }

  lemma {:induction false} RunLength(c: Setting, s: State, steps: seq<Step>)
    requires Inv(c, s) && IsRun(c, s, steps)
    ensures |steps| + Measure(After(c, s, steps)) <= Measure(s)
    decreases |steps|
  {
    if steps != [] {
      StepDecreases(c, s, steps[0]);
      StepKeeps(c, s, steps[0]);
      RunLength(c, Next(c, s, steps[0]), steps[1..]);
    }
  }

  /** Nothing more can happen: the reader is done, or waits for an end it keeps from coming itself. */
  predicate Over(s: State) {
    s.reader.ReaderDone? || (LeftOpen(s) && s.reader.Waiting? && s.pipe == [] && s.writer.WriterClosed?)
  }

  /** Otherwise neither process blocks the other. */
  lemma SomeStep(c: Setting, s: State) returns (step: Step)
    requires SettingOk(c) && Inv(c, s) && !Over(s)
    ensures Enabled(c, s, step)
  {
    if s.reader.Closing? {
      step := CloseOwnEnd;
    } else if s.reader.Storing? {
      step := Store;
    } else if s.pipe != [] {
      step := ReadPipe(1);
    } else if s.writer.Writing? {
      step := FillPipe(1);
    } else if s.writer.Reading? {
      step := if WantsMore(c, s) && s.unread != [] then ReadSource(1) else CloseWriter;
    } else {
      step := FindEnd;
    }
  }

  lemma OverIsCopied(c: Setting, s: State)
    requires Inv(c, s) && Over(s)
    ensures s.stored == c.source && forall step :: !Enabled(c, s, step)
  {
    assert s.stored + [] + [] + [] + [] == s.stored;
  }

  lemma RunEndsOver(c: Setting, s: State, steps: seq<Step>)
    requires SettingOk(c) && Inv(c, s) && IsRun(c, s, steps)
    ensures var e := After(c, s, steps);
            && InTransit(e) == c.source && LeftOpen(e) == LeftOpen(s)
            && |steps| <= Measure(s)
            && (Over(e) ==> e.stored == c.source)
            && ((forall step :: !Enabled(c, e, step)) <==> Over(e))
  {
    RunKeeps(c, s, steps);
    RunLength(c, s, steps);
    var e := After(c, s, steps);
    if Over(e) {
      OverIsCopied(c, e);
    } else {
      var step := SomeStep(c, e);
    }
  }

  /**
   Whatever the chunk sizes, the pipe's capacity and the interleaving: nothing is lost, doubled or reordered on the
   way, the run is finite, and it can stop only where the reader is done and the copy is the source.
   */
  lemma EveryRunCopies(c: Setting, steps: seq<Step>)
    requires SettingOk(c) && IsRun(c, Start(c), steps)
    ensures var s := After(c, Start(c), steps);
            && InTransit(s) == c.source
            && |steps| <= 4 * |c.source| + 3
            && (s.reader.ReaderDone? ==> s.stored == c.source)
            && ((forall step :: !Enabled(c, s, step)) <==> s.reader.ReaderDone?)
  {
    StartInv(c);
    RunEndsOver(c, Start(c), steps);
  }

  /**
   Why the reader closes its own end first: did it not, every run would still copy the whole source, and then stop with
   the reader waiting for an end of file that cannot come.
   */
  lemma KeptOpenHangs(c: Setting, steps: seq<Step>)
    requires SettingOk(c) && IsRun(c, Start(c).(reader := Waiting, ownEndOpen := true), steps)
    ensures var s := After(c, Start(c).(reader := Waiting, ownEndOpen := true), steps);
            && |steps| <= 4 * |c.source| + 2 && !s.reader.ReaderDone?
            && ((forall step :: !Enabled(c, s, step)) ==> s.stored == c.source && s.reader.Waiting?)
  {
    StartInv(c);
    RunEndsOver(c, Start(c).(reader := Waiting, ownEndOpen := true), steps);
    RunKeeps(c, Start(c).(reader := Waiting, ownEndOpen := true), steps);
  }

  lemma StartInv(c: Setting)
    ensures Inv(c, Start(c))
  {
    assert [] + [] + [] + [] + c.source == c.source;
  }

  // ------------------------------------------- each process on its own

  /** What a read returns when `left` bytes can still come: an error, 0 at the end, or a byte to a full buffer. */
  function Found(kernel: nat -> int, call: nat, left: nat): (n: int)
    ensures -1 <= n <= Min(BUFFER_SIZE, left) && (n == 0 <==> left == 0 && kernel(call) >= 0)
    ensures n == -1 <==> kernel(call) < 0
    ensures 0 < kernel(call) <= Min(BUFFER_SIZE, left) ==> n == kernel(call)
  {
    var k := kernel(call);
    if k < 0 then -1 else if left == 0 then 0 else if k == 0 then 1 else Min(k, Min(BUFFER_SIZE, left))
  }

  /** How far a loop of reads gets from `total` on before the end or the first error. */
  function Reach(length: nat, kernel: nat -> int, call: nat, total: nat): (r: nat)
    requires total <= length
    ensures total <= r <= length
    ensures r < length ==> exists n: nat :: n >= call && kernel(n) < 0
    decreases length - total
  {
    var n := Found(kernel, call, length - total);
    if n <= 0 then total else Reach(length, kernel, call + 1, total + n)
  }

  /** How much the first n calls bring, none of them failing. */
  function Gathered(length: nat, kernel: nat -> int, n: nat): (g: nat)
    requires forall j :: 0 <= j < n ==> kernel(j) >= 0
    ensures g <= length
  {
    if n == 0 then 0
    else
      var g := Gathered(length, kernel, n - 1);
      g + Found(kernel, n - 1, length - g)
  }

  lemma {:induction false} ReachFrom(length: nat, kernel: nat -> int, c: nat)
    requires forall j :: 0 <= j < c ==> kernel(j) >= 0
    ensures if Gathered(length, kernel, c) == length then Reach(length, kernel, 0, 0) == length
            else Reach(length, kernel, 0, 0) == Reach(length, kernel, c, Gathered(length, kernel, c))
    decreases c
  {
    if c > 0 {
      var g := Gathered(length, kernel, c - 1);
      ReachFrom(length, kernel, c - 1);
      if g < length {
        ReachEnd(length, kernel, c);
      }
    } else if length == 0 {
      ReachEnd(length, kernel, 0);
    }
  }

  lemma ReachEnd(length: nat, kernel: nat -> int, call: nat)
    ensures Reach(length, kernel, call, length) == length
  {
  }

  /** A read that fails ends the loop with what the reads before it brought, whatever later ones would bring. */
  lemma FailureEndsTheLoop(length: nat, kernel: nat -> int, c: nat)
    requires kernel(c) < 0 && forall j :: 0 <= j < c ==> kernel(j) >= 0
    ensures Reach(length, kernel, 0, 0) == Gathered(length, kernel, c)
  {
    ReachFrom(length, kernel, c);
  }

  lemma {:induction false} ReachesEnd(length: nat, kernel: nat -> int, call: nat, total: nat)
    requires total <= length
    ensures (forall n: nat :: n >= call ==> kernel(n) >= 0) ==> Reach(length, kernel, call, total) == length
    decreases length - total
  {
    var n := Found(kernel, call, length - total);
    if n > 0 {
      ReachesEnd(length, kernel, call + 1, total + n);
    }
  }

  /**
   The sender's loop, by size or until end of file: what it writes is the source up to the first read that fails,
   however the reads fragment it.
   */
  method SenderLoop(source: Bytes, bySize: bool, kernel: nat -> int) returns (written: Bytes)
    requires |source| <= INT_MAX
    ensures written == source[..Reach(|source|, kernel, 0, 0)]
    ensures (forall n: nat :: kernel(n) >= 0) ==> written == source
  {
    written := [];
    var fileSize, totalBytesRead, call := |source|, 0, 0;
    while !bySize || totalBytesRead < fileSize
      invariant totalBytesRead <= |source| && written == source[..totalBytesRead]
      invariant Reach(|source|, kernel, 0, 0) == Reach(|source|, kernel, call, totalBytesRead)
      decreases |source| - totalBytesRead
    {
      var bytesRead := Found(kernel, call, |source| - totalBytesRead);
      if bytesRead <= 0 {
        break;
      }
      written := written + source[totalBytesRead..totalBytesRead + bytesRead];
      totalBytesRead := totalBytesRead + bytesRead;
      call := call + 1;
    }
    ReachesEnd(|source|, kernel, 0, 0);
    assert source[..|source|] == source;
  }

  /** The receiver's loop: it stores whatever comes out of the pipe before its end or the first read that fails. */
  method ReceiverLoop(stream: Bytes, kernel: nat -> int) returns (stored: Bytes)
    ensures stored == stream[..Reach(|stream|, kernel, 0, 0)]
    ensures (forall n: nat :: kernel(n) >= 0) ==> stored == stream
  {
    stored := [];
    var position, call := 0, 0;
    while true
      invariant position <= |stream| && stored == stream[..position]
      invariant Reach(|stream|, kernel, 0, 0) == Reach(|stream|, kernel, call, position)
      decreases |stream| - position
    {
      var bytesRead := Found(kernel, call, |stream| - position);
      if bytesRead <= 0 {
        break;
      }
      stored := stored + stream[position..position + bytesRead];
      position := position + bytesRead;
      call := call + 1;
    }
    ReachesEnd(|stream|, kernel, 0, 0);
    assert stream[..|stream|] == stream;
  }
}
