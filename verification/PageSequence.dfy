/**
 The sequence of pages (Assignment-6/sequence.c): a singly linked list with head,
 tail and a read cursor that wraps.  What kmalloc and copy_to_user may do is a
 parameter; kfree consumes the node it is given.
 */
module PageSequence {

  const PAGE_SIZE: nat := 4096

  type Data = seq<bv8>

  // ----------------------------------------------------- what it stands for

  /** The pages in write order and the index of the page the next read returns. */
  datatype Tape = Tape(pages: seq<Data>, cursor: nat)

  predicate WellFormed(t: Tape) {
    && (if t.pages == [] then t.cursor == 0 else t.cursor < |t.pages|)
    && forall i :: 0 <= i < |t.pages| ==> |t.pages[i]| == PAGE_SIZE
  }

  function Append(t: Tape, page: Data): Tape {
    Tape(t.pages + [page], t.cursor)
  }

  /** That is: one page more, behind those there were, and the cursor where it was. */
  lemma AppendMeans(before: Tape, after: Tape, page: Data)
    ensures var n := |before.pages|;
            after == Append(before, page) <==>
            |after.pages| == n + 1 && after.pages[..n] == before.pages && after.pages[n] == page &&
            after.cursor == before.cursor
  {
    var n := |before.pages|;
    if |after.pages| == n + 1 && after.pages[..n] == before.pages && after.pages[n] == page {
      assert after.pages == after.pages[..n] + [after.pages[n]];
    }
  }

  function Advance(t: Tape): Tape
    requires t.cursor < |t.pages|
  {
    Tape(t.pages, if t.cursor + 1 == |t.pages| then 0 else t.cursor + 1)
  }

  // ------------------------------------------------------------- the list

  class Page {
    const data: array<bv8>
    var next: Page?

    /** kmalloc of a node followed by memcpy: bytes past the given ones are whatever the memory held. */
    constructor (bytes: Data)
      requires |bytes| <= PAGE_SIZE
      ensures fresh(this) && fresh(data) && data.Length == PAGE_SIZE && data[..|bytes|] == bytes && next == null
    {
      data := new bv8[PAGE_SIZE];
      next := null;
      new;
      for i := 0 to |bytes|
        invariant fresh(data) && next == null && data[..i] == bytes[..i]
      {
        data[i] := bytes[i];
      }
    }
  }

  ghost predicate Linked(spine: seq<Page>)
    reads spine
  {
    && (forall i :: 0 <= i < |spine| - 1 ==> spine[i].next == spine[i + 1])
    && (spine != [] ==> spine[|spine| - 1].next == null)
    && (forall i, j :: 0 <= i < j < |spine| ==> spine[i] != spine[j])
  }

  ghost predicate FullPages(spine: seq<Page>) {
    forall i :: 0 <= i < |spine| ==> spine[i].data.Length == PAGE_SIZE
  }

  /** `Oops` is the read through a null `current`, which an empty sequence leads to. */
  datatype ReadResult = Read(bytes: Data) | TooLong | Fault | Oops

  class Sequence {
    var head: Page?
    var tail: Page?
    var current: Page?
    ghost var spine: seq<Page>
    ghost var cursor: nat

    ghost predicate Valid()
      reads this, spine
    {
      && Linked(spine)
      && FullPages(spine)
      && (spine == [] ==> head == tail == current == null && cursor == 0)
      && (spine != [] ==>
            head == spine[0] && tail == spine[|spine| - 1] && cursor < |spine| && current == spine[cursor])
    }

    ghost function Buffers(): set<object>
      reads this, spine
    {
      set p | p in spine :: p.data
    }

    ghost function Contents(): (t: Tape)
      requires Valid()
      reads this, spine, Buffers()
      ensures WellFormed(t) && |t.pages| == |spine|
    {
      Tape(seq(|spine|, i requires 0 <= i < |spine| reads this, spine, Buffers() => spine[i].data[..]), cursor)
    }

    constructor Init()
      ensures Valid() && Contents() == Tape([], 0)
    {
      head, tail, current := null, null, null;
      spine, cursor := [], 0;
    }

    /** sequence_write; `granted` says whether kmalloc succeeds. */
    method Write(bytes: Data, granted: bool) returns (r: int)
      requires Valid()
      modifies this, set p | p in spine
      ensures Valid()
      ensures r == if |bytes| <= PAGE_SIZE && granted then 0 else -1
      ensures r == -1 ==> Contents() == old(Contents()) && spine == old(spine)
      ensures r == 0 ==>
                var before, after := old(Contents()), Contents(); var n := |before.pages|;
                && |after.pages| == n + 1 && after.pages[..n] == before.pages && after.cursor == before.cursor
                && |after.pages[n]| == PAGE_SIZE && after.pages[n][..|bytes|] == bytes
    {
      if |bytes| > PAGE_SIZE {
        return -1;
      }
      if !granted {
        return -1;
      }
      var newPage := new Page(bytes);
      ghost var before := Contents();
      if head == null {
        head := newPage;
        tail := newPage;
        current := newPage;
      } else {
        tail.next := newPage;
        tail := newPage;
      }
      spine := spine + [newPage];
      assert Contents().pages == before.pages + [newPage.data[..]];
      return 0;
    }

    /** sequence_read of `length` bytes; `copied` says whether copy_to_user succeeds. */
    method Read(length: nat, copied: bool) returns (r: ReadResult)
      requires Valid()
      modifies this`current, this`cursor
      ensures Valid()
      ensures length > PAGE_SIZE ==> r == TooLong && Contents() == old(Contents())
      ensures length <= PAGE_SIZE && old(Contents()).pages == [] ==> r == Oops && Contents() == old(Contents())
      ensures length <= PAGE_SIZE && old(Contents()).pages != [] && !copied ==>
                r == Fault && Contents() == old(Contents())
      ensures length <= PAGE_SIZE && old(Contents()).pages != [] && copied ==>
                var before, after := old(Contents()), Contents();
                && r == ReadResult.Read(before.pages[before.cursor][..length])
                && after.pages == before.pages
                && after.cursor == (if before.cursor + 1 < |before.pages| then before.cursor + 1 else 0)
                && after == Advance(before)
    {
      assert spine != [] ==> current.next == if cursor + 1 < |spine| then spine[cursor + 1] else null;
      if length > PAGE_SIZE {
        return TooLong;
      }
      if current == null {
        current := head;
      }
      if current == null {
        return Oops;
      }
      if !copied {
        return Fault;
      }
      r := ReadResult.Read(current.data[..length]);
      current := current.next;
      cursor := cursor + 1;
      if current == null {
        current := head;
        cursor := 0;
      }
    }

    /** sequence_destroy; `log` lists its uses of nodes: reading a link, and passing the node to kfree. */
    method Destroy() returns (log: seq<Use>)
      requires Valid()
      modifies this
      ensures Valid() && Contents() == Tape([], 0)
      ensures Freed(log) == old(spine) && NoUseAfterFree(log)
    {
      TornDownFrees(spine);
      TornDownSafely(spine);
      log := FreeFrom(head, spine);
      head := null;
      tail := null;
      current := null;
      spine, cursor := [], 0;
    }

    /** The loop of sequence_destroy. */
    static method FreeFrom(head: Page?, ghost nodes: seq<Page>) returns (log: seq<Use>)
      requires Linked(nodes) && head == if nodes == [] then null else nodes[0]
      ensures log == TornDown(nodes)
    {
      log := [];
      ghost var n := 0;
      var curr := head;
      while curr != null
        invariant n <= |nodes| && curr == if n < |nodes| then nodes[n] else null
        invariant log == TornDown(nodes[..n])
        decreases |nodes| - n
      {
        var temp := curr;
        curr := curr.next;
        log := log + [Link(temp), Kfree(temp)];
        assert nodes[..n + 1][..n] == nodes[..n];
        n := n + 1;
      }
      assert nodes[..n] == nodes;
    }
  }

  /** A use of a node: reading its link, or passing it to kfree. */
  datatype Use = Link(page: Page) | Kfree(page: Page)

  /** The nodes freed, in order. */
  function Freed(log: seq<Use>): seq<Page> {
    if log == [] then []
    else Freed(log[..|log| - 1]) + if log[|log| - 1].Kfree? then [log[|log| - 1].page] else []
  }

  predicate NoUseAfterFree(log: seq<Use>) {
    forall i, j :: 0 <= i < j < |log| && log[i].Kfree? ==> log[j].page != log[i].page
  }

  /** Of each node in turn, its link is read and then it is freed. */
  function TornDown(nodes: seq<Page>): (log: seq<Use>)
    ensures forall i :: 0 <= i < |log| ==> log[i].page in nodes
  {
    if nodes == [] then []
    else
      var n := |nodes| - 1;
      TornDown(nodes[..n]) + [Link(nodes[n]), Kfree(nodes[n])]
  }

  lemma FreedNode(log: seq<Use>, p: Page)
    ensures Freed(log + [Link(p), Kfree(p)]) == Freed(log) + [p]
  {
    var l := log + [Link(p), Kfree(p)];
    assert l[..|l| - 1] == log + [Link(p)];
    assert (log + [Link(p)])[..|log|] == log;
  }

  lemma {:induction false} TornDownFrees(nodes: seq<Page>)
    ensures Freed(TornDown(nodes)) == nodes
  {
    if nodes != [] {
      var n := |nodes| - 1;
      TornDownFrees(nodes[..n]);
      FreedNode(TornDown(nodes[..n]), nodes[n]);
    }
  }

  lemma {:induction false} TornDownSafely(nodes: seq<Page>)
    requires forall i, j :: 0 <= i < j < |nodes| ==> nodes[i] != nodes[j]
    ensures NoUseAfterFree(TornDown(nodes))
  {
    if nodes != [] {
      var n := |nodes| - 1;
      TornDownSafely(nodes[..n]);
      LastNode(TornDown(nodes[..n]), nodes[n]);
    }
  }

  lemma LastNode(log: seq<Use>, p: Page)
    requires NoUseAfterFree(log) && forall i :: 0 <= i < |log| ==> log[i].page != p
    ensures NoUseAfterFree(log + [Link(p), Kfree(p)])
  {
  }

  // ---------------------------------------------------------- whole laps

  /** A successful call: a write of a page, or a read of some bytes of the page at the cursor. */
  datatype Op = WriteOp(page: Data) | ReadOp(length: nat)

  predicate Fits(op: Op) {
    match op
    case WriteOp(page) => |page| == PAGE_SIZE
    case ReadOp(length) => length <= PAGE_SIZE
  }

  function Do(t: Tape, op: Op): (t': Tape)
    requires WellFormed(t) && Fits(op) && (op.ReadOp? ==> t.pages != [])
    ensures WellFormed(t')
  {
    match op
    case WriteOp(page) => Append(t, page)
    case ReadOp(_) => Advance(t)
  }

  /** The operations can all be done, and no read before the last operation wraps. */
  predicate WithinLap(t: Tape, ops: seq<Op>)
    requires WellFormed(t)
    decreases |ops|
  {
    ops == [] ||
    (Fits(ops[0]) && (ops[0].ReadOp? ==> t.pages != [] && (|ops| == 1 || t.cursor + 1 < |t.pages|)) &&
     WithinLap(Do(t, ops[0]), ops[1..]))
  }

  function DoAll(t: Tape, ops: seq<Op>): (t': Tape)
    requires WellFormed(t) && WithinLap(t, ops)
    ensures WellFormed(t')
    decreases |ops|
  {
    if ops == [] then t else DoAll(Do(t, ops[0]), ops[1..])
  }

  /** What the reads return, in order. */
  function Outputs(t: Tape, ops: seq<Op>): seq<Data>
    requires WellFormed(t) && WithinLap(t, ops)
    decreases |ops|
  {
    if ops == [] then []
    else (if ops[0].ReadOp? then [t.pages[t.cursor][..ops[0].length]] else []) + Outputs(Do(t, ops[0]), ops[1..])
  }

  function ReadLengths(ops: seq<Op>): (r: seq<nat>)
    ensures |r| <= |ops|
  {
    if ops == [] then []
    else (if ops[0].ReadOp? then [ops[0].length] else []) + ReadLengths(ops[1..])
  }

  /** The pages written, in order. */
  function Written(ops: seq<Op>): seq<Data> {
    if ops == [] then [] else (if ops[0].WriteOp? then [ops[0].page] else []) + Written(ops[1..])
  }

  /** What is in the sequence is what was in it followed by what has been written. */
  lemma {:induction false} PagesAreTheWritten(t: Tape, ops: seq<Op>)
    requires WellFormed(t) && WithinLap(t, ops)
    ensures DoAll(t, ops).pages == t.pages + Written(ops)
    decreases |ops|
  {
    if ops == [] {
      assert t.pages + [] == t.pages;
    } else {
      PagesAreTheWritten(Do(t, ops[0]), ops[1..]);
    }
  }

  /** Where the cursor is after the reads, if none of them wrapped. */
  lemma {:induction false} ReadsMoveCursor(t: Tape, ops: seq<Op>)
    requires WellFormed(t) && WithinLap(t, ops) && ops != []
    ensures var e := DoAll(t, ops); var n := |ReadLengths(ops)|;
            && t.cursor + n <= |e.pages|
            && (ops[|ops| - 1].ReadOp? && e.cursor == 0 ==> t.cursor + n == |e.pages|)
    decreases |ops|
  {
    var rest := ops[1..];
    if rest != [] {
      assert rest[|rest| - 1] == ops[|ops| - 1];
      ReadsMoveCursor(Do(t, ops[0]), rest);
    } else {
      assert ReadLengths(ops) == (if ops[0].ReadOp? then [ops[0].length] else []) + ReadLengths([]);
    }
  }

  /** The reads returned, one after the other, the pages from `start` on, each cut to the length asked for. */
  predicate ReadInOrder(outputs: seq<Data>, pages: seq<Data>, start: nat, lengths: seq<nat>) {
    && |outputs| == |lengths| && start + |lengths| <= |pages|
    && forall i :: 0 <= i < |lengths| ==>
         lengths[i] <= |pages[start + i]| && outputs[i] == pages[start + i][..lengths[i]]
  }

  /**
   Along a lap the reads return the pages from the cursor on, one by one and in write order, even when writes come
   between them: the n-th read returns the page that is n-th after the starting cursor among those the sequence had and
   those written.
   */
  lemma LapReadsInOrder(t: Tape, ops: seq<Op>)
    requires WellFormed(t) && WithinLap(t, ops) && ops != []
    ensures ReadInOrder(Outputs(t, ops), t.pages + Written(ops), t.cursor, ReadLengths(ops))
  {
    PagesAreTheWritten(t, ops);
    LapReads(t, ops);
  }

  lemma {:induction false} LapReads(t: Tape, ops: seq<Op>)
    requires WellFormed(t) && WithinLap(t, ops) && ops != []
    ensures ReadInOrder(Outputs(t, ops), DoAll(t, ops).pages, t.cursor, ReadLengths(ops))
    decreases |ops|
  {
    var d, rest := Do(t, ops[0]), ops[1..];
    PagesAreTheWritten(d, rest);
    var pages := DoAll(d, rest).pages;
    if rest == [] {
      assert Outputs(d, rest) == [] && ReadLengths(rest) == [];
    } else {
      LapReads(d, rest);
    }
    if ops[0].ReadOp? {
      OneMoreRead(Outputs(d, rest), pages, t, ops[0].length, ReadLengths(rest));
    } else {
      assert Outputs(t, ops) == Outputs(d, rest) && ReadLengths(ops) == ReadLengths(rest);
    }
  }

  lemma OneMoreRead(outputs: seq<Data>, pages: seq<Data>, t: Tape, length: nat, lengths: seq<nat>)
    requires t.cursor < |t.pages| && t.pages <= pages && length <= |t.pages[t.cursor]|
    requires (lengths == [] && outputs == []) || ReadInOrder(outputs, pages, t.cursor + 1, lengths)
    ensures ReadInOrder([t.pages[t.cursor][..length]] + outputs, pages, t.cursor, [length] + lengths)
  {
  }

  /**
   From the first page to the read that wraps, the reads return every page present at the wrap, those the sequence had
   and those written since, in write order.
   */
  lemma FullLap(t: Tape, ops: seq<Op>)
    requires WellFormed(t) && t.cursor == 0 && WithinLap(t, ops)
    requires ops != [] && ops[|ops| - 1].ReadOp? && DoAll(t, ops).cursor == 0
    ensures |Outputs(t, ops)| == |t.pages| + |Written(ops)|
    ensures ReadInOrder(Outputs(t, ops), t.pages + Written(ops), 0, ReadLengths(ops))
  {
    LapReadsInOrder(t, ops);
    PagesAreTheWritten(t, ops);
    ReadsMoveCursor(t, ops);
  }

  // ----------------------------------------------------- round and round

  /** What successive reads of the given lengths return when nothing is written. */
  function ReadsFrom(t: Tape, lengths: seq<nat>): (outputs: seq<Data>)
    requires WellFormed(t) && t.pages != [] && forall i :: 0 <= i < |lengths| ==> lengths[i] <= PAGE_SIZE
    ensures |outputs| == |lengths|
    decreases |lengths|
  {
    if lengths == [] then [] else [t.pages[t.cursor][..lengths[0]]] + ReadsFrom(Advance(t), lengths[1..])
  }

  /** The n-th read returns the page at r if the cursor comes to r after n places and whole laps. */
  lemma {:induction false} ReadAfterLaps(t: Tape, lengths: seq<nat>, n: nat, laps: nat, r: nat)
    requires WellFormed(t) && t.pages != [] && forall i :: 0 <= i < |lengths| ==> lengths[i] <= PAGE_SIZE
    requires n < |lengths| && t.cursor + n == laps * |t.pages| + r && r < |t.pages|
    ensures ReadsFrom(t, lengths)[n] == t.pages[r][..lengths[n]]
    decreases n
  {
    if n == 0 {
      NoLap(t.cursor, |t.pages|, laps, r);
    } else if t.cursor + 1 == |t.pages| {
      OneLapLess(t.cursor + n, |t.pages|, laps, r);
      ReadAfterLaps(Advance(t), lengths[1..], n - 1, laps - 1, r);
    } else {
      ReadAfterLaps(Advance(t), lengths[1..], n - 1, laps, r);
    }
  }

  lemma NoLap(x: nat, m: nat, laps: nat, r: nat)
    requires x < m && x == laps * m + r
    ensures laps == 0
  {
  }

  lemma OneLapLess(x: nat, m: nat, laps: nat, r: nat)
    requires r < m <= x && x == laps * m + r
    ensures laps > 0 && x - m == (laps - 1) * m + r
  {
  }

  lemma Divided(x: nat, m: nat) returns (laps: nat, r: nat)
    requires m > 0
    ensures x == laps * m + r && r < m && r == x % m
  {
    laps, r := x / m, x % m;
  }

  /** From any cursor and for any number of laps, the n-th read returns the page n places on, counted around the end. */
  lemma ReadsGoRound(t: Tape, lengths: seq<nat>, n: nat)
    requires WellFormed(t) && t.pages != [] && forall i :: 0 <= i < |lengths| ==> lengths[i] <= PAGE_SIZE
    requires n < |lengths|
    ensures ReadsFrom(t, lengths)[n] == t.pages[(t.cursor + n) % |t.pages|][..lengths[n]]
  {
    var laps, r := Divided(t.cursor + n, |t.pages|);
    ReadAfterLaps(t, lengths, n, laps, r);
  }
}
