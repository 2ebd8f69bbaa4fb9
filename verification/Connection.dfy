/** One connection of `Mymuduo/TcpConnection.cc` as a state machine on values: direct write,
    output buffering, write interest, drain, half-close and teardown.

    Every operation is one uninterrupted stretch of code on the connection's loop, except
    `ShutdownFlag`, the check-then-set of `shutdown()`, which any thread performs and which
    is taken to be atomic. User callbacks run between operations, never inside one.
    `kDisconnectioned` in the header is read as `kDisconnected`. */
module Connection {
  import opened Registration
  import opened ByteBuffer

  datatype StateE = kDisconnected | kConnecting | kConnected | kDisconnecting

  function Rank(s: StateE): nat {
    match s
    case kConnecting => 0
    case kConnected => 1
    case kDisconnecting => 2
    case kDisconnected => 3
  }

  /** What the user's connection callback is told. */
  datatype Edge = Up | Down

  /** The callbacks that are queued on the loop rather than called. */
  datatype Notice = WriteComplete | HighWater(len: nat)

  /** A message in the order `sendInLoop` met it, and whether it was accepted. */
  datatype Message = Message(data: seq<Byte>, accepted: bool)

  /** `out` is the readable part of `outputBuffer_`. The kernel's side of the socket is
      `wire`, the bytes it took, and `shutWr`, whether the write half is closed.
      `offered`, `edges` and `shutRan` record the past. */
  datatype Conn = Conn(
    fd: int,
    loop: nat,
    mark: nat,
    hasWriteComplete: bool,
    hasHighWater: bool,
    state: StateE,
    index: Index,
    events: Mask,
    out: seq<Byte>,
    shutWr: bool,
    wire: seq<Byte>,
    offered: seq<Message>,
    edges: seq<Edge>,
    shutRan: bool)
  {
    predicate Writing() {
      Out in events
    }

    function View(): Chan {
      Chan(fd, index, events)
    }
  }

  ghost predicate Fresh(c: Conn) {
    && c.state == kConnecting && c.index == KNew && c.events == NONE_EVENT
    && c.out == [] && c.wire == [] && c.offered == [] && c.edges == []
    && !c.shutWr && !c.shutRan
  }

  /** What the operation asks of the poller. */
  datatype Request = NoRequest | Update | Unregister

  datatype Effect = Effect(conn: Conn, posts: seq<Notice>, request: Request)

  /** The connection's poller after the operation. */
  function PollerAfter<T>(p: Poller<T>, t: T, was: Conn, e: Effect): Poller<T> {
    match e.request
    case NoRequest => p
    case Update => UpdateChannel(p, t, Chan(was.fd, was.index, e.conn.events)).poller
    case Unregister => RemoveChannel(p, was.View()).poller
  }

  /** The index after an interest change. */
  function NextIndex(index: Index, events: Mask): Index {
    if index == KAdded && events == NONE_EVENT then KDeleted else KAdded
  }

  lemma NextIndexIsUpdate<T>(p: Poller<T>, t: T, ch: Chan)
    ensures UpdateChannel(p, t, ch).index == NextIndex(ch.index, ch.events)
    ensures RemoveChannel(p, ch).index == KNew
  {}

  function WithInterest(c: Conn, events: Mask): Conn {
    c.(events := events, index := NextIndex(c.index, events))
  }

  predicate Fatal(wr: WriteResult) {
    wr == WriteFailed(EPIPE) || wr == WriteFailed(ECONNRESET)
  }

  /** `sendInLoop`. The direct write is tried only when nothing is buffered and write
      interest is off; `message` in the source is read as `data`. */
  function SendInLoop(c: Conn, data: seq<Byte>, wr: WriteResult): Effect
    requires wr.Wrote? ==> wr.n <= |data|
  {
    if c.state == kDisconnected then
      Effect(c.(offered := c.offered + [Message(data, false)]), [], NoRequest)
    else
      var direct := !c.Writing() && c.out == [];
      var nwrite := if direct && wr.Wrote? then wr.n else 0;
      var faultError := direct && Fatal(wr);
      var remaining := |data| - nwrite;
      var completed :=
        if direct && wr.Wrote? && remaining == 0 && c.hasWriteComplete then [WriteComplete] else [];
      var sent := c.(wire := c.wire + data[..nwrite], offered := c.offered + [Message(data, !faultError)]);
      if !faultError && remaining > 0 then
        var oldLen := |c.out|;
        var high :=
          if oldLen + remaining >= c.mark && oldLen < c.mark && c.hasHighWater
          then [HighWater(oldLen + remaining)] else [];
        var buffered := sent.(out := c.out + data[nwrite..]);
        if !c.Writing() then
          Effect(WithInterest(buffered, c.events + WRITE_EVENT), completed + high, Update)
        else
          Effect(buffered, completed + high, NoRequest)
      else
        Effect(sent, completed, NoRequest)
  }

  function ShutdownInLoop(c: Conn): Conn {
    c.(shutRan := true, shutWr := c.shutWr || !c.Writing())
  }

  /** `handleWrite`; `state_ = kDisconnecting` in the source is read as a comparison. */
  function HandleWrite(c: Conn, wr: WriteResult): Effect
    requires wr.Wrote? ==> wr.n <= |c.out|
  {
    if c.Writing() && wr.Wrote? && wr.n > 0 then
      var sent := c.(wire := c.wire + c.out[..wr.n], out := c.out[wr.n..]);
      if sent.out == [] then
        var quiet := WithInterest(sent, c.events - WRITE_EVENT);
        var posts := if c.hasWriteComplete then [WriteComplete] else [];
        Effect(if c.state == kDisconnecting then ShutdownInLoop(quiet) else quiet, posts, Update)
      else
        Effect(sent, [], NoRequest)
    else
      Effect(c, [], NoRequest)
  }

  function ConnectEstablished(c: Conn): Effect {
    Effect(WithInterest(c.(state := kConnected, edges := c.edges + [Up]), c.events + READ_EVENT), [], Update)
  }

  /** `handleClose` up to the user's callback, and the first half of `connectDestroyed`. */
  function Disconnect(c: Conn): Effect {
    Effect(WithInterest(c.(state := kDisconnected, edges := c.edges + [Down]), NONE_EVENT), [], Update)
  }

  datatype Op =
    | Establish
    | Send(data: seq<Byte>, wr: WriteResult)
    | ShutdownFlag
    | ShutdownRun
    | WriteReady(wr: WriteResult)
    | Close
    | Destroy     // connectDestroyed up to channel_->remove()
    | Detach      // channel_->remove()

  /** What the kernel may answer to `write` of `len` bytes: any count up to `len` or any
      error, but after SHUT_WR nothing but EPIPE (POSIX.1-2017, `write()`). */
  predicate Answers(c: Conn, len: nat, wr: WriteResult) {
    && (wr.Wrote? ==> wr.n <= len)
    && (c.shutWr && len > 0 ==> wr == WriteFailed(EPIPE))
  }

  /** When the code around the connection runs the operation. */
  predicate Enabled(c: Conn, op: Op) {
    match op
    case Establish => c.state == kConnecting
    case Send(data, wr) => c.state != kConnecting && Answers(c, |data|, wr)
    case ShutdownFlag => c.state == kConnected
    case ShutdownRun => Rank(c.state) >= 2
    case WriteReady(wr) => c.state != kConnecting && Answers(c, |c.out|, wr)
    case Close => c.index == KAdded
    case Destroy => c.state != kConnecting
    case Detach => Rank(c.state) >= 2
  }

  /** The kernel never takes more bytes than it was given. */
  predicate Possible(c: Conn, op: Op) {
    match op
    case Send(data, wr) => wr.Wrote? ==> wr.n <= |data|
    case WriteReady(wr) => wr.Wrote? ==> wr.n <= |c.out|
    case _ => true
  }

  function Apply(c: Conn, op: Op): Effect
    requires Possible(c, op)
  {
    match op
    case Establish => ConnectEstablished(c)
    case Send(data, wr) => SendInLoop(c, data, wr)
    case ShutdownFlag => Effect(c.(state := kDisconnecting), [], NoRequest)
    case ShutdownRun => Effect(ShutdownInLoop(c), [], NoRequest)
    case WriteReady(wr) => HandleWrite(c, wr)
    case Close => Disconnect(c)
    case Destroy => if c.state == kConnected then Disconnect(c) else Effect(c, [], NoRequest)
    case Detach => Effect(c.(index := KNew), [], Unregister)
  }

  /** The accepted messages, end to end. */
  function Accepted(ms: seq<Message>): seq<Byte> {
    if ms == [] then []
    else Accepted(ms[..|ms| - 1]) + if ms[|ms| - 1].accepted then ms[|ms| - 1].data else []
  }

  lemma AcceptedSnoc(ms: seq<Message>, m: Message)
    ensures Accepted(ms + [m]) == Accepted(ms) + if m.accepted then m.data else []
  {
    assert (ms + [m])[..|ms|] == ms;
  }

  /** Byte-stream preservation. */
  ghost predicate StreamOk(c: Conn) {
    c.wire + c.out == Accepted(c.offered)
  }

  /** Write interest is on exactly while output is pending. */
  ghost predicate InterestOk(c: Conn) {
    && READ_EVENT <= c.events <= READ_EVENT + WRITE_EVENT
    && (c.Writing() <==> c.out != [])
  }

  /** The coupled invariant of state, buffer, interest, registration and socket. */
  ghost predicate Coherent(c: Conn) {
    && StreamOk(c)
    && match c.state
       case kConnecting => Fresh(c)
       case kConnected => InterestOk(c) && c.index == KAdded && !c.shutWr && !c.shutRan && c.edges == [Up]
       case kDisconnecting =>
         && InterestOk(c) && c.index != KDeleted && c.edges == [Up]
         && (c.shutWr ==> c.out == [])
         && (c.shutRan && !c.shutWr ==> c.out != [])
       case kDisconnected => c.events == NONE_EVENT && c.index != KAdded && c.edges == [Up, Down]
  }

  lemma Requeue<T>(w: seq<T>, o: seq<T>, d: seq<T>, k: nat)
    requires k <= |d| && (o == [] || k == 0)
    ensures (w + d[..k]) + (o + d[k..]) == (w + o) + d
  {}

  /** Where the bytes of one message go: the first `k` to the socket, the rest to the back
      of the buffer; or, refused, nowhere. */
  lemma SendMoves(c: Conn, data: seq<Byte>, wr: WriteResult) returns (k: nat, taken: bool)
    requires wr.Wrote? ==> wr.n <= |data|
    ensures k <= |data| && (c.out == [] || k == 0)
    ensures var d := SendInLoop(c, data, wr).conn;
            && d.offered == c.offered + [Message(data, taken)]
            && (taken ==> d.wire == c.wire + data[..k]
                          && d.out == if k == |data| then c.out else c.out + data[k..])
            && (!taken ==> k == 0 && d.wire == c.wire && d.out == c.out)
    ensures taken <==> c.state != kDisconnected
                       && !(c.out == [] && !c.Writing() && wr in {WriteFailed(EPIPE), WriteFailed(ECONNRESET)})
    ensures k == if taken && c.out == [] && !c.Writing() && wr.Wrote? then wr.n else 0
  {
    var direct := !c.Writing() && c.out == [];
    k := if direct && wr.Wrote? && c.state != kDisconnected then wr.n else 0;
    taken := c.state != kDisconnected && !(direct && Fatal(wr));
  }

  /** What one drain moves, and what follows from it: the bytes the kernel took leave the
      buffer for the wire; when they were the last, interest goes off, and a connection that
      is half-closing closes its write half, and only then. */
  lemma WriteMoves(c: Conn, wr: WriteResult) returns (k: nat)
    requires Coherent(c) && Enabled(c, WriteReady(wr))
    ensures k == if c.state != kDisconnected && c.out != [] && wr.Wrote? then wr.n else 0
    ensures var d := HandleWrite(c, wr).conn;
            && k <= |c.out| && d.wire == c.wire + c.out[..k] && c.out == c.out[..k] + d.out
            && (d.events == if k > 0 && d.out == [] then READ_EVENT else c.events)
            && (d.shutWr <==> c.shutWr || (k > 0 && d.out == [] && c.state == kDisconnecting))
            && (d.state, d.offered, d.edges) == (c.state, c.offered, c.edges)
  {
    k := if c.Writing() && wr.Wrote? then wr.n else 0;
    assert READ_EVENT + WRITE_EVENT - WRITE_EVENT == READ_EVENT;
  }

  lemma SendKeepsStream(c: Conn, data: seq<Byte>, wr: WriteResult)
    requires StreamOk(c) && (wr.Wrote? ==> wr.n <= |data|)
    ensures StreamOk(SendInLoop(c, data, wr).conn)
  {
    var k, taken := SendMoves(c, data, wr);
    AcceptedSnoc(c.offered, Message(data, taken));
    Requeue(c.wire, c.out, data, k);
    if k == |data| {
      assert c.out + data[k..] == c.out;
    }
  }

  lemma WriteKeepsStream(c: Conn, wr: WriteResult)
    requires StreamOk(c) && (wr.Wrote? ==> wr.n <= |c.out|)
    ensures StreamOk(HandleWrite(c, wr).conn)
  {
    if wr.Wrote? {
      assert c.wire + c.out[..wr.n] + c.out[wr.n..] == c.wire + c.out;
    }
  }

  lemma OpKeepsStream(c: Conn, op: Op)
    requires StreamOk(c) && Enabled(c, op)
    ensures StreamOk(Apply(c, op).conn)
  {
    match op
    case Send(data, wr) => SendKeepsStream(c, data, wr);
    case WriteReady(wr) => WriteKeepsStream(c, wr);
    case _ =>
  }

  lemma SendKeepsShape(c: Conn, data: seq<Byte>, wr: WriteResult)
    requires Coherent(c) && Enabled(c, Send(data, wr))
    ensures Coherent(SendInLoop(c, data, wr).conn)
  {
    SendKeepsStream(c, data, wr);
    if c.state != kDisconnected {
      SendKeepsInterest(c, data, wr);
    }
  }

  lemma SendKeepsInterest(c: Conn, data: seq<Byte>, wr: WriteResult)
    requires InterestOk(c) && Enabled(c, Send(data, wr)) && c.state != kDisconnected && c.index != KDeleted
    ensures var d := SendInLoop(c, data, wr).conn;
            && InterestOk(d) && d.state == c.state && d.edges == c.edges
            && d.shutWr == c.shutWr && d.shutRan == c.shutRan
            && (c.out != [] ==> d.out != []) && (c.shutWr && c.out == [] ==> d.out == [])
            && (c.index == KAdded ==> d.index == KAdded) && d.index != KDeleted
  {}

  lemma WriteKeepsShape(c: Conn, wr: WriteResult)
    requires Coherent(c) && Enabled(c, WriteReady(wr))
    ensures Coherent(HandleWrite(c, wr).conn)
  {
    WriteKeepsStream(c, wr);
  }

  /** Every operation keeps the coupled invariant. */
  lemma OpKeeps(c: Conn, op: Op)
    requires Coherent(c) && Enabled(c, op)
    ensures Coherent(Apply(c, op).conn)
  {
    match op
    case Send(data, wr) => SendKeepsShape(c, data, wr);
    case WriteReady(wr) => WriteKeepsShape(c, wr);
    case Establish => assert [] + [Up] == [Up];
    case Close => assert [Up] + [Down] == [Up, Down];
    case Destroy => assert [Up] + [Down] == [Up, Down];
    case _ =>
  }

  // Runs of one connection.

  ghost predicate ValidRun(c: Conn, ops: seq<Op>)
    decreases |ops|, 0
  {
    ops == [] || (ValidRun(c, ops[..|ops| - 1]) && Enabled(After(c, ops[..|ops| - 1]), ops[|ops| - 1]))
  }

  ghost function After(c: Conn, ops: seq<Op>): Conn
    requires ValidRun(c, ops)
    decreases |ops|, 1
  {
    if ops == [] then c else Apply(After(c, ops[..|ops| - 1]), ops[|ops| - 1]).conn
  }

  /** The state after the first `k` operations. */
  ghost function At(c: Conn, ops: seq<Op>, k: nat): Conn
    requires ValidRun(c, ops) && k <= |ops|
  {
    PrefixIsRun(c, ops, k);
    After(c, ops[..k])
  }

  lemma {:induction false} PrefixIsRun(c: Conn, ops: seq<Op>, k: nat)
    requires ValidRun(c, ops) && k <= |ops|
    ensures ValidRun(c, ops[..k])
    decreases |ops|
  {
    if k < |ops| {
      PrefixIsRun(c, ops[..|ops| - 1], k);
      assert ops[..|ops| - 1][..k] == ops[..k];
    } else {
      assert ops[..k] == ops;
    }
  }

  /** Consecutive states of a run are one operation apart. */
  lemma AtStep(c: Conn, ops: seq<Op>, k: nat)
    requires ValidRun(c, ops) && k < |ops|
    ensures Enabled(At(c, ops, k), ops[k])
    ensures At(c, ops, k + 1) == Apply(At(c, ops, k), ops[k]).conn
  {
    PrefixIsRun(c, ops, k + 1);
    assert ops[..k + 1][..k] == ops[..k];
  }

  lemma {:induction false} RunKeeps(c: Conn, ops: seq<Op>)
    requires Coherent(c) && ValidRun(c, ops)
    ensures Coherent(After(c, ops))
    decreases |ops|
  {
    if ops != [] {
      var before := ops[..|ops| - 1];
      RunKeeps(c, before);
      OpKeeps(After(c, before), ops[|ops| - 1]);
    }
  }

  lemma FreshIsCoherent(c: Conn)
    requires Fresh(c)
    ensures Coherent(c)
  {}

  /** The messages a run hands to `sendInLoop`, in order. */
  function Sent(ops: seq<Op>): seq<seq<Byte>> {
    if ops == [] then []
    else Sent(ops[..|ops| - 1]) + if ops[|ops| - 1].Send? then [ops[|ops| - 1].data] else []
  }

  function Contents(ms: seq<Message>): (r: seq<seq<Byte>>)
    ensures |r| == |ms|
  {
    seq(|ms|, i requires 0 <= i < |ms| => ms[i].data)
  }

  lemma OpOffers(c: Conn, op: Op)
    requires Enabled(c, op)
    ensures Contents(Apply(c, op).conn.offered) == Contents(c.offered) + if op.Send? then [op.data] else []
  {
    if op.Send? {
      var k, taken := SendMoves(c, op.data, op.wr);
    }
  }

  lemma {:induction false} OfferedAreSent(c: Conn, ops: seq<Op>)
    requires ValidRun(c, ops)
    ensures Contents(After(c, ops).offered) == Contents(c.offered) + Sent(ops)
    decreases |ops|
  {
    if ops != [] {
      OfferedAreSent(c, ops[..|ops| - 1]);
      OpOffers(After(c, ops[..|ops| - 1]), ops[|ops| - 1]);
    }
  }

  /** Byte-stream preservation over a whole run: what the socket took followed by what is
      buffered is the accepted messages in order, each of them whole; and the messages
      accepted or refused are those of the run's sends. */
  lemma BytesPreserved(c: Conn, ops: seq<Op>)
    requires Fresh(c) && ValidRun(c, ops)
    ensures var e := After(c, ops);
            e.wire + e.out == Accepted(e.offered) && Contents(e.offered) == Sent(ops)
  {
    FreshIsCoherent(c);
    RunKeeps(c, ops);
    OfferedAreSent(c, ops);
    NothingOffered(c, Sent(ops));
  }

  lemma NothingOffered(c: Conn, more: seq<seq<Byte>>)
    requires Fresh(c)
    ensures Contents(c.offered) + more == more
  {}

  /** While the connection is up or half-closing, output is pending exactly when write
      interest is on, so nothing is stuck in the buffer unannounced. */
  lemma NoStuckOutput(c: Conn, ops: seq<Op>)
    requires Fresh(c) && ValidRun(c, ops)
    ensures var e := After(c, ops);
            e.state == kConnected || e.state == kDisconnecting ==>
              (e.Writing() <==> e.out != []) && READ_EVENT <= e.events
  {
    FreshIsCoherent(c);
    RunKeeps(c, ops);
  }

  /** What `shutdownInLoop` does: it closes the write half exactly when no output is pending, and
      leaves it to a drain otherwise. */
  lemma ShutdownMeans(c: Conn)
    requires Coherent(c) && c.state == kDisconnecting
    ensures var d := Apply(c, ShutdownRun).conn;
            d.shutRan && (d.shutWr <==> c.shutWr || c.out == []) && d == c.(shutRan := true, shutWr := d.shutWr)
  {}

  /** And `shutdown()` before it: the state alone, so that nothing is accepted any more. */
  lemma FlagMeans(c: Conn)
    requires Coherent(c) && Enabled(c, ShutdownFlag)
    ensures c.state == kConnected && Apply(c, ShutdownFlag).conn == c.(state := kDisconnecting)
  {}

  lemma {:induction false} ShutdownLasts(c: Conn, ops: seq<Op>)
    requires ValidRun(c, ops) && (c.shutRan || ShutdownRun in ops)
    ensures After(c, ops).shutRan
    decreases |ops|
  {
    if ops != [] {
      var before := ops[..|ops| - 1];
      assert ops == before + [ops[|ops| - 1]];
      if c.shutRan || ShutdownRun in before {
        ShutdownLasts(c, before);
      }
      RanStays(After(c, before), ops[|ops| - 1]);
    }
  }

  lemma RanStays(c: Conn, op: Op)
    requires Possible(c, op)
    ensures Apply(c, op).conn.shutRan <== c.shutRan || op == ShutdownRun
  {}

  /** No half-close is forgotten: once a run has performed `shutdownInLoop`, a connection still
      half-closing has its write half closed or output pending; and then the `handleWrite` that
      drains it closes the write half. */
  lemma ShutdownIsServed(c: Conn, ops: seq<Op>)
    requires Fresh(c) && ValidRun(c, ops) && ShutdownRun in ops && After(c, ops).state == kDisconnecting
    ensures var e := After(c, ops);
            e.shutWr || (e.out != [] && e.Writing() && HandleWrite(e, Wrote(|e.out|)).conn.shutWr)
  {
    ShutdownLasts(c, ops);
    HalfCloseIsGraceful(c, ops);
  }

  /** Graceful half-close: while disconnecting, the write half is closed only with every
      accepted byte written; and once `shutdownInLoop` has run with the write half still
      open, output is pending with write interest on, so the `handleWrite` that drains it
      closes the write half. */
  lemma HalfCloseIsGraceful(c: Conn, ops: seq<Op>)
    requires Fresh(c) && ValidRun(c, ops)
    ensures var e := After(c, ops);
            e.state == kDisconnecting ==>
              && (e.shutWr ==> e.wire == Accepted(e.offered))
              && (e.shutRan && !e.shutWr ==>
                    && e.out != [] && e.Writing()
                    && HandleWrite(e, Wrote(|e.out|)).conn.shutWr
                    && HandleWrite(e, Wrote(|e.out|)).conn.wire == Accepted(e.offered))
  {
    FreshIsCoherent(c);
    RunKeeps(c, ops);
    var e := After(c, ops);
    if e.state == kDisconnecting {
      if e.shutWr {
        assert e.wire + [] == e.wire;
      } else if e.shutRan {
        assert e.out[..|e.out|] == e.out;
      }
    }
  }

  /** The rank, the callbacks, the bytes and the messages of `d` extend those of `c`. */
  ghost predicate Forward(c: Conn, d: Conn) {
    && Rank(c.state) <= Rank(d.state)
    && c.edges <= d.edges
    && (d.edges != c.edges ==> d.state != c.state)
    && c.wire <= d.wire && c.offered <= d.offered
    && (c.shutWr ==> d.shutWr)
    && (d.fd, d.loop, d.mark, d.hasWriteComplete, d.hasHighWater)
       == (c.fd, c.loop, c.mark, c.hasWriteComplete, c.hasHighWater)
  }

  lemma SendMovesForward(c: Conn, data: seq<Byte>, wr: WriteResult)
    requires wr.Wrote? ==> wr.n <= |data|
    ensures Forward(c, SendInLoop(c, data, wr).conn)
  {
    var k, taken := SendMoves(c, data, wr);
  }

  lemma WriteMovesForward(c: Conn, wr: WriteResult)
    requires wr.Wrote? ==> wr.n <= |c.out|
    ensures Forward(c, HandleWrite(c, wr).conn)
  {}

  /** What `connectEstablished` brings about: up, registered, and polled for readable and
      priority data but not for writability. */
  lemma EstablishMeans(c: Conn)
    requires Coherent(c) && Enabled(c, Establish)
    ensures var d := Apply(c, Establish).conn;
            d.state == kConnected && d.index == KAdded && d.edges == [Up] && d.events == {In, Pri} && d.out == []
  {}

  /** An open connection asks for readable and priority data in every state it can be in. */
  lemma OpenIsRead(c: Conn)
    requires Coherent(c) && (c.state == kConnected || c.state == kDisconnecting)
    ensures In in c.events && Pri in c.events && (Out in c.events <==> c.out != [])
  {}

  /** What taking a connection down does, by a close or by its destruction. */
  lemma DownMeans(c: Conn, op: Op)
    requires Coherent(c) && Enabled(c, op) && (op == Close || (op == Destroy && c.state == kConnected))
    ensures var d := Apply(c, op).conn;
            d.state == kDisconnected && d.events == {} && d.index == KDeleted && d.edges == [Up, Down]
            && d.wire == c.wire && d.out == c.out
  {
    assert [Up] + [Down] == [Up, Down];
  }

  /** One operation never lowers the rank or rewrites the past. */
  lemma OpMovesForward(c: Conn, op: Op)
    requires Coherent(c) && Enabled(c, op)
    ensures Forward(c, Apply(c, op).conn)
  {
    match op
    case Send(data, wr) => SendMovesForward(c, data, wr);
    case WriteReady(wr) => WriteMovesForward(c, wr);
    case _ =>
  }

  lemma AtKeeps(c: Conn, ops: seq<Op>, k: nat)
    requires Coherent(c) && ValidRun(c, ops) && k <= |ops|
    ensures Coherent(At(c, ops, k))
  {
    PrefixIsRun(c, ops, k);
    RunKeeps(c, ops[..k]);
  }

  lemma {:induction false} RanksGrow(c: Conn, ops: seq<Op>, i: nat, j: nat)
    requires Coherent(c) && ValidRun(c, ops) && i <= j <= |ops|
    ensures Rank(At(c, ops, i).state) <= Rank(At(c, ops, j).state)
    decreases j
  {
    if i < j {
      RanksGrow(c, ops, i, j - 1);
      AtStep(c, ops, j - 1);
      AtKeeps(c, ops, j - 1);
      OpMovesForward(At(c, ops, j - 1), ops[j - 1]);
    }
  }

  /** Lifecycle: the rank never falls, and the user sees one up callback, then at most one
      down callback, and exactly one as soon as the connection is down. */
  lemma Lifecycle(c: Conn, ops: seq<Op>, i: nat, j: nat)
    requires Fresh(c) && ValidRun(c, ops) && i <= j <= |ops|
    ensures Rank(At(c, ops, i).state) <= Rank(At(c, ops, j).state)
    ensures var e := At(c, ops, j);
            e.edges == match e.state
                       case kConnecting => []
                       case kConnected => [Up]
                       case kDisconnecting => [Up]
                       case kDisconnected => [Up, Down]
  {
    FreshIsCoherent(c);
    RanksGrow(c, ops, i, j);
    AtKeeps(c, ops, j);
  }

  /** What an operation may still do to a connection that is down. */
  ghost predicate Silent(c: Conn, op: Op)
    requires Possible(c, op)
  {
    var e := Apply(c, op);
    && e.conn.state == kDisconnected && e.posts == [] && e.request != Update
    && e.conn.wire == c.wire && e.conn.out == c.out && e.conn.edges == c.edges
    && e.conn.events == NONE_EVENT && e.conn.index != KAdded
  }

  lemma DownIsSilent(c: Conn, op: Op)
    requires Coherent(c) && c.state == kDisconnected && Enabled(c, op)
    ensures Silent(c, op)
  {}

  /** Closed is silent: from the operation that takes a connection down on, none writes a
      byte, queues or runs a callback, turns interest on or registers the channel again. */
  lemma ClosedIsSilent(c: Conn, ops: seq<Op>, k: nat)
    requires Fresh(c) && ValidRun(c, ops) && k < |ops| && At(c, ops, k).state == kDisconnected
    ensures Enabled(At(c, ops, k), ops[k]) && Silent(At(c, ops, k), ops[k])
    ensures At(c, ops, |ops|).wire == At(c, ops, k).wire
  {
    FreshIsCoherent(c);
    AtKeeps(c, ops, k);
    AtStep(c, ops, k);
    DownIsSilent(At(c, ops, k), ops[k]);
    WireStays(c, ops, k, |ops|);
  }

  lemma {:induction false} WireStays(c: Conn, ops: seq<Op>, k: nat, j: nat)
    requires Coherent(c) && ValidRun(c, ops) && k <= j <= |ops| && At(c, ops, k).state == kDisconnected
    ensures At(c, ops, j).wire == At(c, ops, k).wire && At(c, ops, j).state == kDisconnected
    decreases j
  {
    if k < j {
      WireStays(c, ops, k, j - 1);
      DownStep(c, ops, j - 1);
    }
  }

  lemma DownStep(c: Conn, ops: seq<Op>, k: nat)
    requires Coherent(c) && ValidRun(c, ops) && k < |ops| && At(c, ops, k).state == kDisconnected
    ensures At(c, ops, k + 1).wire == At(c, ops, k).wire && At(c, ops, k + 1).state == kDisconnected
  {
    AtStep(c, ops, k);
    AtKeeps(c, ops, k);
    DownIsSilent(At(c, ops, k), ops[k]);
  }

  // The queued callbacks.

  function CountWriteComplete(posts: seq<Notice>): nat {
    if posts == [] then 0
    else (if posts[0].WriteComplete? then 1 else 0) + CountWriteComplete(posts[1..])
  }

  function CountHighWater(posts: seq<Notice>): nat {
    if posts == [] then 0
    else (if posts[0].HighWater? then 1 else 0) + CountHighWater(posts[1..])
  }

  /** The operation left the buffer empty by writing: a send that bypassed the buffer, or a
      drain. */
  ghost predicate Emptied(c: Conn, op: Op)
    requires Enabled(c, op)
  {
    var d := Apply(c, op).conn;
    && d.out == []
    && match op
       case Send(_, wr) =>
         wr.Wrote? && c.out == [] && |d.offered| > 0 && d.offered[|d.offered| - 1].accepted
       case WriteReady(_) => c.out != []
       case _ => false
  }

  /** Exactly one write-complete callback is queued when the output empties by writing, none
      otherwise; and then every accepted byte is on the wire. */
  lemma WriteCompleteIff(c: Conn, op: Op)
    requires Coherent(c) && Enabled(c, op)
    ensures CountWriteComplete(Apply(c, op).posts) == if c.hasWriteComplete && Emptied(c, op) then 1 else 0
    ensures Emptied(c, op) ==> Apply(c, op).conn.wire == Accepted(Apply(c, op).conn.offered)
  {
    OpKeeps(c, op);
    var d := Apply(c, op).conn;
    assert Emptied(c, op) ==> d.wire + [] == d.wire;
    match op
    case Send(data, wr) =>
      var k, taken := SendMoves(c, data, wr);
      assert d.offered[|d.offered| - 1] == Message(data, taken);
      SendPosts(c, data, wr);
    case _ =>
  }

  /** The buffered length passes the mark upwards in this operation. */
  ghost predicate Crosses(c: Conn, op: Op)
    requires Enabled(c, op)
  {
    |c.out| < c.mark <= |Apply(c, op).conn.out|
  }

  lemma SendPosts(c: Conn, data: seq<Byte>, wr: WriteResult)
    requires Coherent(c) && Enabled(c, Send(data, wr))
    ensures var e := SendInLoop(c, data, wr);
            && CountWriteComplete(e.posts) ==
                 (if c.state != kDisconnected && c.hasWriteComplete && c.out == [] && !c.Writing() && wr == Wrote(|data|) then 1 else 0)
            && CountHighWater(e.posts) ==
                 (if c.hasHighWater && |c.out| < c.mark <= |e.conn.out| then 1 else 0)
            && forall n :: HighWater(n) in e.posts ==> n == |e.conn.out|
  {
    var e := SendInLoop(c, data, wr);
    var k, taken := SendMoves(c, data, wr);
    assert |e.posts| <= 1;
  }

  lemma HighWaterIff(c: Conn, op: Op)
    requires Coherent(c) && Enabled(c, op)
    ensures CountHighWater(Apply(c, op).posts) == if c.hasHighWater && Crosses(c, op) then 1 else 0
    ensures forall n :: HighWater(n) in Apply(c, op).posts ==> n == |Apply(c, op).conn.out|
  {
    match op
    case Send(data, wr) => SendPosts(c, data, wr);
    case _ =>
  }

  ghost function HighWaters(c: Conn, ops: seq<Op>): nat
    requires ValidRun(c, ops)
    decreases |ops|
  {
    if ops == [] then 0
    else HighWaters(c, ops[..|ops| - 1]) + CountHighWater(Apply(After(c, ops[..|ops| - 1]), ops[|ops| - 1]).posts)
  }

  ghost function Crossings(c: Conn, ops: seq<Op>): nat
    requires ValidRun(c, ops)
    decreases |ops|
  {
    if ops == [] then 0
    else Crossings(c, ops[..|ops| - 1]) + if Crosses(After(c, ops[..|ops| - 1]), ops[|ops| - 1]) then 1 else 0
  }

  /** Over a whole run, as many high-water callbacks are queued as the buffered length
      crosses the mark upwards. */
  lemma {:induction false} HighWatersAreCrossings(c: Conn, ops: seq<Op>)
    requires Coherent(c) && ValidRun(c, ops)
    ensures HighWaters(c, ops) == if c.hasHighWater then Crossings(c, ops) else 0
    ensures After(c, ops).hasHighWater == c.hasHighWater && After(c, ops).mark == c.mark
    decreases |ops|
  {
    if ops != [] {
      var before := ops[..|ops| - 1];
      HighWatersAreCrossings(c, before);
      RunKeeps(c, before);
      HighWaterIff(After(c, before), ops[|ops| - 1]);
      OpMovesForward(After(c, before), ops[|ops| - 1]);
    }
  }

  /** `lengths` lists the buffered length after each prefix of the run. */
  ghost predicate Measures(c: Conn, ops: seq<Op>, lengths: seq<nat>) {
    && ValidRun(c, ops)
    && |lengths| == |ops| + 1
    && forall k {:trigger At(c, ops, k)} :: 0 <= k <= |ops| ==> lengths[k] == |At(c, ops, k).out|
  }

  lemma {:induction false} FindFall(lengths: seq<nat>, mark: nat, i: nat, j: nat) returns (k: nat)
    requires i < j < |lengths| && lengths[i] >= mark > lengths[j]
    ensures i <= k < j && lengths[k] >= mark > lengths[k + 1]
  {
    if lengths[j - 1] < mark {
      k := FindFall(lengths, mark, i, j - 1);
    } else {
      k := j - 1;
    }
  }

  /** Between two upward crossings some `handleWrite` brought the length below the mark. */
  lemma DrainBetweenCrossings(c: Conn, ops: seq<Op>, n: seq<nat>, i: nat, j: nat) returns (k: nat)
    requires Measures(c, ops, n) && i < j < |ops|
    requires n[i] < c.mark <= n[i + 1] && n[j] < c.mark <= n[j + 1]
    ensures i < k < j && ops[k].WriteReady? && n[k + 1] < c.mark <= n[k]
  {
    k := FindFall(n, c.mark, i + 1, j);
    DrainStep(c, ops, n, k);
  }

  lemma DrainStep(c: Conn, ops: seq<Op>, n: seq<nat>, k: nat)
    requires Measures(c, ops, n) && k < |ops| && n[k + 1] < n[k]
    ensures ops[k].WriteReady?
  {
    AtStep(c, ops, k);
    OnlyDrainsShrink(At(c, ops, k), ops[k]);
  }

  lemma OnlyDrainsShrink(c: Conn, op: Op)
    requires Enabled(c, op) && |Apply(c, op).conn.out| < |c.out|
    ensures op.WriteReady?
  {
    if op.Send? {
      var n, taken := SendMoves(c, op.data, op.wr);
    }
  }

  /** The send would register a removed channel again: half-closing, nothing buffered, and
      the kernel leaves something to buffer. */
  predicate ReRegisters(c: Conn, data: seq<Byte>, wr: WriteResult) {
    && c.index == KNew && c.state == kDisconnecting && c.out == []
    && data != [] && !Fatal(wr) && (wr.Wrote? ==> wr.n < |data|)
  }

  /** A removed channel is registered again by a late send exactly in that case. */
  lemma LateSendReRegistersIff(c: Conn, data: seq<Byte>, wr: WriteResult)
    requires Coherent(c) && c.index == KNew && Enabled(c, Send(data, wr))
    ensures SendInLoop(c, data, wr).conn.index != KNew <==> ReRegisters(c, data, wr)
  {}

  /** What can be seen of the guard before the kernel has answered. */
  predicate Exposed(c: Conn, data: seq<Byte>) {
    c.index == KNew && c.state == kDisconnecting && c.out == [] && data != [] && !c.shutWr
  }

  /** Some answer of the kernel makes a send register a removed channel again exactly then. */
  lemma ExposedIff(c: Conn, data: seq<Byte>)
    ensures (exists wr :: Answers(c, |data|, wr) && ReRegisters(c, data, wr)) <==> Exposed(c, data)
  {
    if Exposed(c, data) {
      assert Answers(c, |data|, WriteFailed(EWOULDBLOCK)) && ReRegisters(c, data, WriteFailed(EWOULDBLOCK));
    }
  }

  /** One operation more. */
  lemma RunSnoc(c: Conn, xs: seq<Op>, op: Op)
    requires ValidRun(c, xs) && Enabled(After(c, xs), op)
    ensures ValidRun(c, xs + [op]) && After(c, xs + [op]) == Apply(After(c, xs), op).conn
  {
    var run := xs + [op];
    assert run[..|run| - 1] == xs && run[|run| - 1] == op;
  }

  ghost predicate Reaches(c: Conn, ops: seq<Op>, d: Conn) {
    ValidRun(c, ops) && After(c, ops) == d
  }

  lemma ReachSnoc(c: Conn, ops: seq<Op>, d: Conn, op: Op, e: Conn)
    requires Reaches(c, ops, d) && Enabled(d, op) && e == Apply(d, op).conn
    ensures Reaches(c, ops + [op], e)
  {
    RunSnoc(c, ops, op);
  }

  lemma ReachUnsnoc(c: Conn, ops: seq<Op>, e: Conn) returns (d: Conn)
    requires Reaches(c, ops, e) && ops != []
    ensures Reaches(c, ops[..|ops| - 1], d) && Enabled(d, ops[|ops| - 1]) && e == Apply(d, ops[|ops| - 1]).conn
  {
    d := After(c, ops[..|ops| - 1]);
  }

  lemma {:induction false} RunsCompose(c: Conn, xs: seq<Op>, d: Conn, ys: seq<Op>, e: Conn)
    requires Reaches(c, xs, d) && Reaches(d, ys, e)
    ensures Reaches(c, xs + ys, e)
    decreases |ys|
  {
    if ys == [] {
      assert xs + ys == xs;
    } else {
      var before, op := ys[..|ys| - 1], ys[|ys| - 1];
      var k := ReachUnsnoc(d, ys, e);
      RunsCompose(c, xs, d, before, k);
      ReachSnoc(c, xs + before, k, op, e);
      assert xs + ys == xs + before + [op];
    }
  }

  /** All callbacks a run queues, in order. */
  ghost function Posted(c: Conn, ops: seq<Op>): seq<Notice>
    requires ValidRun(c, ops)
    decreases |ops|
  {
    if ops == [] then []
    else Posted(c, ops[..|ops| - 1]) + Apply(After(c, ops[..|ops| - 1]), ops[|ops| - 1]).posts
  }

  /** A run from `c` to `d` that queues these callbacks. */
  ghost predicate Posts(c: Conn, ops: seq<Op>, d: Conn, posts: seq<Notice>) {
    ValidRun(c, ops) && After(c, ops) == d && Posted(c, ops) == posts
  }

  /** One operation leads from `d` to `e` and queues `posts`. */
  ghost predicate Does(d: Conn, op: Op, e: Conn, posts: seq<Notice>) {
    Enabled(d, op) && Apply(d, op).conn == e && Apply(d, op).posts == posts
  }

  lemma PostsSnoc(c: Conn, ops: seq<Op>, d: Conn, posts: seq<Notice>, op: Op, e: Conn, more: seq<Notice>)
    requires Posts(c, ops, d, posts) && Does(d, op, e, more)
    ensures Posts(c, ops + [op], e, posts + more)
  {
    RunSnoc(c, ops, op);
    assert (ops + [op])[..|ops|] == ops;
  }

  lemma PostsNone(c: Conn, ops: seq<Op>, d: Conn, posts: seq<Notice>)
    requires Posts(c, ops, d, posts)
    ensures Posts(c, ops + [], d, posts + [])
  {
    assert ops + [] == ops && posts + [] == posts;
  }

  // What a surrounding system needs to know about one operation.

  /** At most registered again, and at most the half-close flag set. */
  ghost predicate Gentle(c: Conn, d: Conn) {
    && (d.index == c.index || d.index == KAdded) && d.fd == c.fd && d.loop == c.loop
    && (d.state == c.state || (c.state == kConnected && d.state == kDisconnecting))
  }

  lemma TrafficIsGentle(c: Conn, op: Op)
    requires Coherent(c) && Enabled(c, op) && IsTraffic(op)
    ensures Gentle(c, Apply(c, op).conn)
  {}

  /** Only a channel that is new or registered is updated. */
  lemma UpdateIsFresh(c: Conn, op: Op)
    requires Coherent(c) && Enabled(c, op) && Apply(c, op).request == Update
    ensures c.index != KDeleted
  {}

  /** Registered or not as before, and at most the half-close flag has been set. */
  ghost predicate Calm(c: Conn, d: Conn) {
    && d.index == c.index && d.fd == c.fd && d.loop == c.loop
    && (d.state == c.state || (c.state == kConnected && d.state == kDisconnecting))
  }

  predicate IsTraffic(op: Op) {
    op.Send? || op.WriteReady? || op.ShutdownFlag? || op.ShutdownRun?
  }

  /** The channel is still registered, or the connection is down. */
  predicate Attached(c: Conn) {
    c.index == KAdded || c.state == kDisconnected
  }

  lemma TrafficIsCalm(c: Conn, op: Op)
    requires Coherent(c) && Enabled(c, op) && IsTraffic(op)
    requires op.WriteReady? ==> Attached(c)
    requires op.Send? ==> !ReRegisters(c, op.data, op.wr)
    ensures Calm(c, Apply(c, op).conn)
  {
    if op.Send? && c.index == KNew {
      LateSendReRegistersIff(c, op.data, op.wr);
    }
  }

  /** The poller request accounts for every change of index or interest. */
  ghost predicate Faithful(c: Conn, e: Effect) {
    && e.conn.fd == c.fd && e.conn.loop == c.loop
    && match e.request
       case NoRequest => e.conn.index == c.index && e.conn.events == c.events
       case Update => e.conn.index == NextIndex(c.index, e.conn.events)
       case Unregister => e.conn.index == KNew && e.conn.events == c.events
  }

  lemma SendIsFaithful(c: Conn, data: seq<Byte>, wr: WriteResult)
    requires wr.Wrote? ==> wr.n <= |data|
    ensures Faithful(c, SendInLoop(c, data, wr))
  {}

  lemma RequestIsFaithful(c: Conn, op: Op)
    requires Possible(c, op)
    ensures Faithful(c, Apply(c, op))
  {
    match op
    case Send(data, wr) => SendIsFaithful(c, data, wr);
    case _ =>
  }
}
