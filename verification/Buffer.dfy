/** The byte buffer of `Mymuduo/Buffer.h` and `Mymuduo/Buffer.cc`.

    `BufferLayout` describes where the two indices and the end of the vector go;
    `ByteBuffer` is the class itself, whose methods are proved against it and against
    the queue of readable bytes. `peak` and `std::cop` in the header are read as `peek`
    and `std::copy`. */
module BufferLayout {

  const CHEAP_PREPEND: nat := 8

  /** The two indices and the size of the vector. */
  datatype Layout = Layout(reader: nat, write: nat, size: nat) {
    /** The reader leaves the prepend area only while something is left to read. */
    predicate Ok() {
      && CHEAP_PREPEND <= reader <= write <= size
      && (reader > CHEAP_PREPEND ==> reader < write)
    }

    function Readable(): int {
      write - reader
    }

    function Writeable(): int {
      size - write
    }
  }

  function Initial(initialSize: nat): Layout {
    Layout(CHEAP_PREPEND, CHEAP_PREPEND, CHEAP_PREPEND + initialSize)
  }

  /** What `ensureWriteBytes` and `makeSpace` leave behind: the same layout, a longer
      vector, or the readable bytes moved down to the prepend area. */
  function EnsureWrite(l: Layout, len: nat): Layout
    requires l.Ok()
  {
    if l.Writeable() >= len then l
    else if l.Writeable() + l.reader < len + CHEAP_PREPEND then l.(size := l.write + len)
    else Layout(CHEAP_PREPEND, CHEAP_PREPEND + (l.write - l.reader), l.size)
  }

  function Append(l: Layout, len: nat): Layout
    requires l.Ok()
  {
    var m := EnsureWrite(l, len);
    m.(write := m.write + len)
  }

  function Retrieve(l: Layout, len: nat): Layout
    requires l.Ok()
  {
    if len < l.Readable() then l.(reader := l.reader + len)
    else Layout(CHEAP_PREPEND, CHEAP_PREPEND, l.size)
  }

  /** `readFd` after `readv` returned `n` bytes. */
  function ReadFd(l: Layout, n: nat): Layout
    requires l.Ok()
  {
    if n <= l.Writeable() then l.(write := l.write + n)
    else Append(l.(write := l.size), n - l.Writeable())
  }

  datatype Op = AppendOp(len: nat) | RetrieveOp(len: nat) | ReadFdOp(n: nat)

  function Apply(l: Layout, op: Op): Layout
    requires l.Ok()
  {
    match op
    case AppendOp(len) => Append(l, len)
    case RetrieveOp(len) => Retrieve(l, len)
    case ReadFdOp(n) => ReadFd(l, n)
  }

  /** The readable length as a queue sees it, with no indices at all. */
  function QueueLength(readable: int, op: Op): int {
    match op
    case AppendOp(len) => readable + len
    case RetrieveOp(len) => if len < readable then readable - len else 0
    case ReadFdOp(n) => readable + n
  }

  function Max(a: int, b: int): int {
    if a < b then b else a
  }

  ghost function Run(l: Layout, ops: seq<Op>): Layout
    requires l.Ok()
    ensures Run(l, ops).Ok()
    decreases ops
  {
    if ops == [] then l else StepOk(l, ops[0]); Run(Apply(l, ops[0]), ops[1..])
  }

  /** The largest readable length met along the run, the start included. */
  ghost function Peak(l: Layout, ops: seq<Op>): int
    requires l.Ok()
    decreases ops
  {
    if ops == [] then l.Readable()
    else StepOk(l, ops[0]); Max(l.Readable(), Peak(Apply(l, ops[0]), ops[1..]))
  }

  /** Twice the largest readable length, less two bytes, plus the prepend area; or what
      the constructor reserved. */
  function SpaceBound(initialSize: nat, peak: int): int {
    CHEAP_PREPEND + Max(initialSize, if peak >= 2 then 2 * peak - 2 else peak)
  }

  /** One operation keeps `8 <= readerIndex <= writeIndex <= size` and acts on the
      length as a queue does. */
  lemma StepOk(l: Layout, op: Op)
    requires l.Ok()
    ensures Apply(l, op).Ok()
    ensures 8 <= Apply(l, op).reader <= Apply(l, op).write <= Apply(l, op).size
    ensures Apply(l, op).Readable() == QueueLength(l.Readable(), op)
    ensures Apply(l, op).size >= l.size
  {}

  /** The vector grows only when compaction cannot fit, and then to at most twice the
      new readable length plus the prepend area. */
  lemma GrowthIsBounded(l: Layout, op: Op)
    requires l.Ok()
    ensures Apply(l, op).size == l.size
            || Apply(l, op).size <= SpaceBound(0, Apply(l, op).Readable())
    ensures Apply(l, op).size > l.size ==>
              l.size < CHEAP_PREPEND + Apply(l, op).Readable()
  {}

  /** Over every run the vector stays within `SpaceBound` of the largest readable length. */
  lemma {:induction false} SpaceIsBounded(l: Layout, ops: seq<Op>, initialSize: nat, peak: int)
    requires l.Ok() && l.size <= SpaceBound(initialSize, peak)
    ensures Run(l, ops).size <= SpaceBound(initialSize, Max(peak, Peak(l, ops)))
    decreases ops
  {
    if ops != [] {
      var next := Apply(l, ops[0]);
      StepOk(l, ops[0]);
      GrowthIsBounded(l, ops[0]);
      var p := Max(peak, next.Readable());
      SpaceIsBounded(next, ops[1..], initialSize, p);
      PeakCoversStart(next, ops[1..]);
    }
  }

  lemma PeakCoversStart(l: Layout, ops: seq<Op>)
    requires l.Ok()
    ensures Peak(l, ops) >= l.Readable()
  {}

  /** The bound for a buffer's whole life, from its construction. */
  lemma SpaceBoundOverLife(initialSize: nat, ops: seq<Op>)
    ensures var l := Initial(initialSize);
            && Run(l, ops).size <= SpaceBound(initialSize, Peak(l, ops))
            && (Run(l, ops).size <= 8 + initialSize || Run(l, ops).size <= 2 * Peak(l, ops) + 8)
  {
    var l := Initial(initialSize);
    PeakCoversStart(l, ops);
    SpaceIsBounded(l, ops, initialSize, 0);
  }

  /** The bound is attained for every length: an almost emptied buffer takes an append
      that compaction just fails to fit. */
  lemma SpaceBoundIsTight(k: nat)
    requires k >= 1
    ensures var ops := [AppendOp(k), RetrieveOp(k - 1), AppendOp(k)];
            var l := Initial(0);
            Peak(l, ops) == k + 1 && Run(l, ops).size == SpaceBound(0, k + 1)
  {
    var l0 := Initial(0);
    var l1 := Apply(l0, AppendOp(k));
    var l2 := Apply(l1, RetrieveOp(k - 1));
    var l3 := Apply(l2, AppendOp(k));
    var ops := [AppendOp(k), RetrieveOp(k - 1), AppendOp(k)];
    var rest := [RetrieveOp(k - 1), AppendOp(k)];
    var last := [AppendOp(k)];
    assert ops[1..] == rest && rest[1..] == last && last[1..] == [];
    assert Peak(l3, []) == k + 1 && Run(l3, []) == l3;
    assert Peak(l2, last) == k + 1 && Run(l2, last) == l3;
    assert Peak(l1, rest) == k + 1 && Run(l1, rest) == l3;
  }
}

module ByteBuffer {
  import opened BufferLayout
  import opened Slices

  type Byte = bv8

  const EXTRA_SIZE: nat := 65536

  /** What the kernel answers to `readv`: bytes of the stream, or an error number. */
  datatype ReadResult = Received(bytes: seq<Byte>) | ReadFailed(errno: nat)

  /** What the kernel answers to `write`: how many bytes it took, or an error. Only the
      errors the callers tell apart have a name. */
  datatype Errno = EWOULDBLOCK | EPIPE | ECONNRESET | EOTHER

  datatype WriteResult = Wrote(n: nat) | WriteFailed(errno: Errno)

  /** `readv` over two segments: the first is filled before the second is touched. */
  method Readv(a: array<Byte>, off: nat, extra: array<Byte>, bytes: seq<Byte>)
    requires a != extra && off <= a.Length
    requires |bytes| <= a.Length - off + extra.Length
    modifies a, extra
    ensures a[..off] == old(a[..off])
    ensures var k := if |bytes| <= a.Length - off then |bytes| else a.Length - off;
            && a[off..off + k] == bytes[..k]
            && a[off + k..] == old(a[off + k..])
            && extra[..|bytes| - k] == bytes[k..]
  {
    var room := a.Length - off;
    for i := 0 to |bytes|
      invariant a[..off] == old(a[..off])
      invariant forall j :: 0 <= j < i && j < room ==> a[off + j] == bytes[j]
      invariant forall j :: off + i <= j < a.Length ==> a[j] == old(a[j])
      invariant forall j :: room <= j < i ==> extra[j - room] == bytes[j]
    {
      if i < room {
        a[off + i] := bytes[i];
      } else {
        extra[i - room] := bytes[i];
      }
    }
    ghost var k := if |bytes| <= room then |bytes| else room;
    assert forall j :: off + k <= j < a.Length ==> a[j] == old(a[j]);
  }

  /** `std::copy` of `n` elements to a target at or below the source: copying upwards
      never reads an element that was already overwritten. */
  method CopyDown(b: array<Byte>, from: nat, to: nat, n: nat)
    requires to <= from && from + n <= b.Length
    modifies b
    ensures b[to..to + n] == old(b[from..from + n])
  {
    for i := 0 to n
      invariant forall j :: to <= j < to + i ==> b[j] == old(b[j + (from - to)])
      invariant forall j :: from + i <= j < b.Length ==> b[j] == old(b[j])
    {
      b[to + i] := b[from + i];
    }
  }

  /** `std::copy` of foreign bytes to position `at`. */
  method CopyIn(b: array<Byte>, at: nat, data: seq<Byte>)
    requires at + |data| <= b.Length
    modifies b
    ensures b[..at] == old(b[..at])
    ensures b[at..at + |data|] == data
  {
    for i := 0 to |data|
      invariant b[..at] == old(b[..at])
      invariant forall j :: at <= j < at + i ==> b[j] == data[j - at]
    {
      b[at + i] := data[i];
    }
  }

  lemma SliceOfPrefix<T>(a: seq<T>, b: seq<T>, lo: nat, hi: nat)
    requires lo <= hi <= |a| && hi <= |b| && a[..hi] == b[..hi]
    ensures a[lo..hi] == b[lo..hi]
  {
    assert a[lo..hi] == a[..hi][lo..];
    assert b[lo..hi] == b[..hi][lo..];
  }

  lemma AppendSplit<T>(a: seq<T>, b: seq<T>, k: nat)
    requires k <= |b|
    ensures a + b[..k] + b[k..] == a + b
  {}

  lemma KeepsBound(l: Layout, op: Op, initialSize: nat, peak: nat)
    requires l.Ok() && l.size <= SpaceBound(initialSize, peak)
    ensures Apply(l, op).Ok()
    ensures Apply(l, op).size <= SpaceBound(initialSize, Max(peak, Apply(l, op).Readable()))
  {
    StepOk(l, op);
    GrowthIsBounded(l, op);
  }

  class Buffer {
    var buffer: array<Byte>
    var readerIndex: nat
    var writeIndex: nat
    const initialSize: nat
    /** The largest readable length so far. */
    ghost var peak: nat

    ghost function Shape(): Layout
      reads this
    {
      Layout(readerIndex, writeIndex, buffer.Length)
    }

    ghost predicate Valid()
      reads this
    {
      && Shape().Ok()
      && Shape().Readable() <= peak
      && buffer.Length <= SpaceBound(initialSize, peak)
    }

    /** The readable bytes: the queue this buffer stands for. */
    ghost function Contents(): seq<Byte>
      requires Valid()
      reads this, buffer
    {
      buffer[readerIndex..writeIndex]
    }

    constructor (initialSize: nat)
      ensures Valid() && fresh(buffer)
      ensures Contents() == [] && peak == 0 && this.initialSize == initialSize
      ensures Shape() == Initial(initialSize)
    {
      this.initialSize := initialSize;
      buffer := new Byte[CHEAP_PREPEND + initialSize](_ => 0);
      readerIndex := CHEAP_PREPEND;
      writeIndex := CHEAP_PREPEND;
      peak := 0;
    }

    function ReadableBytes(): (n: nat)
      requires Valid()
      reads this, buffer
      ensures n == |Contents()|
    {
      writeIndex - readerIndex
    }

    function WriteableBytes(): (n: nat)
      requires Valid()
      reads this
      ensures n == Shape().Writeable()
    {
      buffer.Length - writeIndex
    }

    method RetrieveAll()
      requires Valid()
      modifies this`readerIndex, this`writeIndex
      ensures Valid()
      ensures Contents() == []
      ensures Shape() == Layout(CHEAP_PREPEND, CHEAP_PREPEND, old(Shape()).size)
    {
      readerIndex := CHEAP_PREPEND;
      writeIndex := CHEAP_PREPEND;
    }

    method Retrieve(len: nat)
      requires Valid()
      modifies this`readerIndex, this`writeIndex
      ensures Valid()
      ensures Contents() == if len < |old(Contents())| then old(Contents())[len..] else []
      ensures Shape() == BufferLayout.Retrieve(old(Shape()), len)
    {
      if len < ReadableBytes() {
        readerIndex := readerIndex + len;
      } else {
        RetrieveAll();
      }
    }

    /** `std::string(peek(), len)` reads `len` bytes whatever the readable length is; the
        result is a dequeue exactly as far as the readable bytes go. */
    method RetrieveAsString(len: nat) returns (s: seq<Byte>)
      requires Valid() && readerIndex + len <= buffer.Length
      modifies this`readerIndex, this`writeIndex
      ensures Valid()
      ensures |s| == len
      ensures len <= |old(Contents())| ==> s + Contents() == old(Contents())
      ensures len > |old(Contents())| ==> old(Contents()) <= s && Contents() == []
      ensures Shape() == BufferLayout.Retrieve(old(Shape()), len)
    {
      s := buffer[readerIndex..readerIndex + len];
      ghost var was := Contents();
      if len <= |was| {
        assert s == was[..len];
      } else {
        assert s[..|was|] == was;
      }
      Retrieve(len);
    }

    method RetrieveAllAsString() returns (s: seq<Byte>)
      requires Valid()
      modifies this`readerIndex, this`writeIndex
      ensures Valid()
      ensures s == old(Contents()) && Contents() == []
      ensures Shape() == Layout(CHEAP_PREPEND, CHEAP_PREPEND, old(Shape()).size)
    {
      s := RetrieveAsString(ReadableBytes());
    }

    method MakeSpace(len: nat)
      requires Valid() && WriteableBytes() < len
      modifies this`buffer, this`readerIndex, this`writeIndex, buffer
      ensures buffer == old(buffer) || fresh(buffer)
      ensures Shape() == EnsureWrite(old(Shape()), len) && Shape().Ok()
      ensures WriteRoom(len)
      ensures buffer[readerIndex..writeIndex] == old(Contents())
    {
      if WriteableBytes() + readerIndex < len + CHEAP_PREPEND {
        var bigger := new Byte[writeIndex + len](_ => 0);
        CopyIn(bigger, 0, buffer[..]);
        SliceOfPrefix(bigger[..], buffer[..], readerIndex, writeIndex);
        buffer := bigger;
      } else {
        var readable := ReadableBytes();
        CopyDown(buffer, readerIndex, CHEAP_PREPEND, readable);
        readerIndex := CHEAP_PREPEND;
        writeIndex := readerIndex + readable;
      }
    }

    ghost predicate WriteRoom(len: nat)
      reads this
    {
      writeIndex + len <= buffer.Length
    }

    method EnsureWriteBytes(len: nat)
      requires Valid()
      modifies this`buffer, this`readerIndex, this`writeIndex, buffer
      ensures buffer == old(buffer) || fresh(buffer)
      ensures Shape() == EnsureWrite(old(Shape()), len) && Shape().Ok()
      ensures WriteRoom(len)
      ensures buffer[readerIndex..writeIndex] == old(Contents())
    {
      if WriteableBytes() < len {
        MakeSpace(len);
      }
    }

    /** Room first, then the copy: the moves of `append`, without the accounting. */
    method CopyToEnd(data: seq<Byte>)
      requires Valid()
      modifies this`buffer, this`readerIndex, this`writeIndex, buffer
      ensures buffer == old(buffer) || fresh(buffer)
      ensures Shape() == BufferLayout.Append(old(Shape()), |data|) && Shape().Ok()
      ensures buffer[readerIndex..writeIndex] == old(Contents()) + data
    {
      EnsureWriteBytes(|data|);
      ghost var was := buffer[..];
      CopyIn(buffer, writeIndex, data);
      SliceOfPrefix(buffer[..], was, readerIndex, writeIndex);
      SliceSplits(buffer[..], readerIndex, writeIndex, writeIndex + |data|);
      writeIndex := writeIndex + |data|;
    }

    method Append(data: seq<Byte>)
      requires Valid()
      modifies this`buffer, this`readerIndex, this`writeIndex, this`peak, buffer
      ensures Valid() && (buffer == old(buffer) || fresh(buffer))
      ensures Contents() == old(Contents()) + data
      ensures Shape() == BufferLayout.Append(old(Shape()), |data|)
      ensures peak == Max(old(peak), |Contents()|)
    {
      KeepsBound(Shape(), AppendOp(|data|), initialSize, peak);
      CopyToEnd(data);
      peak := Max(peak, writeIndex - readerIndex);
    }

    /** How much the iovecs offer to `readv`. */
    ghost function ReadCapacity(): (n: nat)
      requires Valid()
      reads this
      ensures n >= 65536 && n >= Shape().Writeable()
    {
      WriteableBytes() + if WriteableBytes() < EXTRA_SIZE then EXTRA_SIZE else 0
    }

    /** The `readv` call: the free space behind the readable bytes first, then `extra`. */
    method Scatter(extra: array<Byte>, bytes: seq<Byte>)
      requires Valid() && extra != buffer
      requires |bytes| <= WriteableBytes() + extra.Length
      modifies buffer, extra
      ensures |bytes| <= WriteableBytes() ==>
                buffer[readerIndex..writeIndex + |bytes|] == old(Contents()) + bytes
      ensures |bytes| > WriteableBytes() ==>
                && buffer[readerIndex..] == old(Contents()) + bytes[..WriteableBytes()]
                && extra[..|bytes| - WriteableBytes()] == bytes[WriteableBytes()..]
    {
      ghost var was := buffer[..];
      Readv(buffer, writeIndex, extra, bytes);
      SliceOfPrefix(buffer[..], was, readerIndex, writeIndex);
      ghost var k := if |bytes| <= WriteableBytes() then |bytes| else WriteableBytes();
      SliceSplits(buffer[..], readerIndex, writeIndex, writeIndex + k);
    }

    /** Scatter read: what does not fit the vector arrives in the stack buffer and is
        appended, so the stream reaches the queue whole and in order. */
    method ReadFd(answer: ReadResult) returns (n: int, savedErrno: nat)
      requires Valid()
      requires answer.Received? ==> |answer.bytes| <= ReadCapacity()
      modifies this`buffer, this`readerIndex, this`writeIndex, this`peak, buffer
      ensures Valid() && (buffer == old(buffer) || fresh(buffer))
      ensures answer.Received? ==>
                && n == |answer.bytes|
                && Contents() == old(Contents()) + answer.bytes
                && Shape() == BufferLayout.ReadFd(old(Shape()), n)
                && peak == Max(old(peak), |Contents()|)
      ensures answer.ReadFailed? ==>
                && n == -1 && savedErrno == answer.errno
                && Contents() == old(Contents()) && Shape() == old(Shape())
                && peak == old(peak)
    {
      savedErrno := 0;
      if answer.ReadFailed? {
        return -1, answer.errno;
      }
      n := |answer.bytes|;
      Receive(answer.bytes);
    }

    method Receive(bytes: seq<Byte>)
      requires Valid() && |bytes| <= ReadCapacity()
      modifies this`buffer, this`readerIndex, this`writeIndex, this`peak, buffer
      ensures Valid() && (buffer == old(buffer) || fresh(buffer))
      ensures Contents() == old(Contents()) + bytes
      ensures Shape() == BufferLayout.ReadFd(old(Shape()), |bytes|)
      ensures peak == Max(old(peak), |Contents()|)
    {
      var extrabuf := new Byte[EXTRA_SIZE](_ => 0);
      var writable := WriteableBytes();
      Scatter(extrabuf, bytes);
      if |bytes| <= writable {
        Advance(|bytes|);
      } else {
        AppendSplit(old(Contents()), bytes, writable);
        Spill(extrabuf, |bytes| - writable);
      }
    }

    /** `writeIndex_ += n`. */
    method Advance(n: nat)
      requires Valid() && n <= WriteableBytes()
      modifies this`writeIndex, this`peak
      ensures Valid()
      ensures Contents() == buffer[readerIndex..old(writeIndex) + n]
      ensures Shape() == BufferLayout.ReadFd(old(Shape()), n)
      ensures peak == Max(old(peak), |Contents()|)
    {
      KeepsBound(Shape(), ReadFdOp(n), initialSize, peak);
      writeIndex := writeIndex + n;
      peak := Max(peak, writeIndex - readerIndex);
    }

    /** `writeIndex_ = buffer_.size(); append(extrabuf, n)`. */
    method Spill(extrabuf: array<Byte>, n: nat)
      requires Valid() && extrabuf != buffer && 0 < n <= extrabuf.Length
      modifies this`buffer, this`readerIndex, this`writeIndex, this`peak, buffer
      ensures Valid() && (buffer == old(buffer) || fresh(buffer))
      ensures Contents() == old(buffer[readerIndex..]) + old(extrabuf[..n])
      ensures Shape() == BufferLayout.Append(old(Shape()).(write := old(buffer).Length), n)
      ensures peak == Max(old(peak), |Contents()|)
    {
      writeIndex := buffer.Length;
      peak := Max(peak, writeIndex - readerIndex);
      Append(extrabuf[..n]);
    }

    /** `write` from `peek()`: the kernel takes a prefix of the readable bytes, which stay
        until the caller retrieves them. */
    method WriteFd(answer: WriteResult) returns (n: int, taken: seq<Byte>)
      requires Valid()
      requires answer.Wrote? ==> answer.n <= ReadableBytes()
      ensures answer.Wrote? ==> n == answer.n && taken == Contents()[..n]
      ensures answer.WriteFailed? ==> n == -1 && taken == []
    {
      match answer
      case Wrote(k) =>
        n := k;
        taken := buffer[readerIndex..readerIndex + k];
      case WriteFailed(_) =>
        n := -1;
        taken := [];
    }
  }
}
