/** The class `TcpConnection`, proved against the state machine of `Connection`.

    The kernel's answers are parameters. A user callback that the source calls in place is
    recorded in `edges`; what it does is made of the same operations, interleaved in
    `Reactor`. */
module TcpConnectionClass {
  import opened Registration
  import BufferLayout
  import opened ByteBuffer
  import opened EventPoller
  import opened TaskLoop
  import C = Connection

  /** What connections queue on their loop. */
  datatype Functor =
    | Notify(conn: TcpConnection, notice: C.Notice)
    | SendLater(conn: TcpConnection, data: seq<Byte>)
    | ShutdownLater(conn: TcpConnection)

  datatype ReadOutcome = MessageRead | PeerClosed | ReadError(errno: nat)

  class TcpConnection {
    const loop: EventLoop<Functor>
    const loopId: nat
    const channel: Channel
    const inputBuffer: Buffer
    const outputBuffer: Buffer
    const highWaterMark: nat
    const hasHighWater: bool
    const hasWriteComplete: bool
    var state: C.StateE
    /** The kernel's side of the socket: whether the write half is closed, what it took. */
    var shutWr: bool
    ghost var wire: seq<Byte>
    ghost var offered: seq<C.Message>
    ghost var edges: seq<C.Edge>
    ghost var shutRan: bool

    ghost predicate Valid()
      reads this, outputBuffer, inputBuffer, outputBuffer.buffer, channel, channel.poller, channel.poller.watched
    {
      && outputBuffer.Valid() && inputBuffer.Valid()
      && outputBuffer != inputBuffer && outputBuffer.buffer != inputBuffer.buffer
      && channel.Ready()
    }

    ghost function View(): C.Conn
      requires outputBuffer.Valid()
      reads this, outputBuffer, outputBuffer.buffer, channel
    {
      C.Conn(channel.fd, loopId, highWaterMark, hasWriteComplete, hasHighWater, state, channel.index,
             channel.events, outputBuffer.Contents(), shutWr, wire, offered, edges, shutRan)
    }

    ghost function PollerView(): Poller<Channel>
      reads channel.poller
    {
      channel.poller.View()
    }

    /** The notices, bound to this connection. */
    ghost function Bound(posts: seq<C.Notice>): seq<Functor> {
      seq(|posts|, i requires 0 <= i < |posts| => Notify(this, posts[i]))
    }

    constructor (loop: EventLoop<Functor>, loopId: nat, channel: Channel, mark: nat, wc: bool, hw: bool)
      requires channel.Ready() && channel.View() == Chan(channel.fd, KNew, NONE_EVENT)
      ensures Valid() && this.channel == channel && this.loop == loop
      ensures C.Fresh(View()) && C.Coherent(View())
      ensures View().mark == mark && View().hasWriteComplete == wc && View().hasHighWater == hw
      ensures View().loop == loopId && View().fd == channel.fd
      ensures inputBuffer.Shape() == outputBuffer.Shape() == BufferLayout.Layout(8, 8, 1032)
      ensures fresh(outputBuffer) && fresh(inputBuffer) && fresh(outputBuffer.buffer)
    {
      this.loop := loop;
      this.loopId := loopId;
      this.channel := channel;
      inputBuffer := new Buffer(1024);
      outputBuffer := new Buffer(1024);
      highWaterMark := mark;
      hasHighWater := hw;
      hasWriteComplete := wc;
      state := C.kConnecting;
      shutWr, shutRan := false, false;
      wire, offered, edges := [], [], [];
    }

    /** Tries the socket directly, when nothing is buffered and write interest is off. */
    method TryWrite(data: seq<Byte>, wr: WriteResult) returns (nwrite: nat, faultError: bool, completed: bool)
      requires Valid() && (wr.Wrote? ==> wr.n <= |data|)
      modifies this`wire, this`offered, loop`pending, loop`queued, loop`counter
      ensures Valid() && PollerView() == old(PollerView())
      ensures var direct := !old(View()).Writing() && old(View()).out == [];
              && nwrite == (if direct && wr.Wrote? then wr.n else 0)
              && faultError == (direct && C.Fatal(wr))
              && completed == (direct && wr.Wrote? && wr.n == |data| && hasWriteComplete)
      ensures View() == old(View()).(wire := old(wire) + data[..nwrite],
                                     offered := old(offered) + [C.Message(data, !faultError)])
      ensures loop.pending == old(loop.pending) + Bound(if completed then [C.WriteComplete] else [])
    {
      nwrite, faultError, completed := 0, false, false;
      ghost var writing := channel.events * WRITE_EVENT;
      assert Out in channel.events <==> Out in writing;
      if !channel.IsWriting() && outputBuffer.ReadableBytes() == 0 {
        nwrite, faultError, completed := WriteDirect(data, wr);
      }
      offered := offered + [C.Message(data, !faultError)];
    }

    /** The `write` call and the sorting of its errors. */
    method WriteDirect(data: seq<Byte>, wr: WriteResult) returns (nwrite: nat, faultError: bool, completed: bool)
      requires Valid() && (wr.Wrote? ==> wr.n <= |data|)
      modifies this`wire, loop`pending, loop`queued, loop`counter
      ensures nwrite == (if wr.Wrote? then wr.n else 0) && wire == old(wire) + data[..nwrite]
      ensures faultError == C.Fatal(wr)
      ensures completed == (wr.Wrote? && wr.n == |data| && hasWriteComplete)
      ensures loop.pending == old(loop.pending) + Bound(if completed then [C.WriteComplete] else [])
    {
      nwrite, faultError, completed := 0, false, false;
      match wr
      case Wrote(n) =>
        nwrite := n;
        wire := wire + data[..n];
        if |data| - n == 0 && hasWriteComplete {
          completed := true;
          loop.QueueInLoop(Notify(this, C.WriteComplete), true);
        }
      case WriteFailed(errno) =>
        if errno != EWOULDBLOCK {
          if errno == EPIPE || errno == ECONNRESET {
            faultError := true;
          }
        }
    }

    /** Buffers the bytes the socket did not take, reports the high-water mark when they
        carry the buffer over it, and asks for writability. */
    method KeepRest(data: seq<Byte>, nwrite: nat) returns (high: bool)
      requires Valid() && nwrite < |data|
      modifies outputBuffer, outputBuffer.buffer, channel`events, channel`index
      modifies channel.poller`channels, channel.poller`kernel, loop`pending, loop`queued, loop`counter
      ensures Valid()
      ensures var c := old(View());
              var len := |c.out| + |data| - nwrite;
              && high == (len >= c.mark && |c.out| < c.mark && c.hasHighWater)
              && loop.pending == old(loop.pending) + Bound(if high then [C.HighWater(len)] else [])
      ensures var c := old(View()).(out := old(View()).out + data[nwrite..]);
              View() == if c.Writing() then c else C.WithInterest(c, c.events + WRITE_EVENT)
      ensures PollerView() ==
              if old(View()).Writing() then old(PollerView())
              else UpdateChannel(old(PollerView()), channel, Chan(channel.fd, old(channel.index), channel.events)).poller
    {
      var remaining := |data| - nwrite;
      high := ReportHighWater(outputBuffer.ReadableBytes(), remaining);
      outputBuffer.Append(data[nwrite..]);
      AskForWritability();
    }

    method ReportHighWater(oldLen: nat, remaining: nat) returns (high: bool)
      modifies loop`pending, loop`queued, loop`counter
      ensures high == (oldLen + remaining >= highWaterMark && oldLen < highWaterMark && hasHighWater)
      ensures loop.pending == old(loop.pending) + Bound(if high then [C.HighWater(oldLen + remaining)] else [])
    {
      high := false;
      if oldLen + remaining >= highWaterMark && oldLen < highWaterMark && hasHighWater {
        high := true;
        loop.QueueInLoop(Notify(this, C.HighWater(oldLen + remaining)), true);
      }
    }

    method AskForWritability()
      requires Valid()
      modifies channel`events, channel`index, channel.poller`channels, channel.poller`kernel
      ensures Valid()
      ensures var c := old(View());
              View() == if c.Writing() then c else C.WithInterest(c, c.events + WRITE_EVENT)
      ensures PollerView() ==
              if old(View()).Writing() then old(PollerView())
              else UpdateChannel(old(PollerView()), channel, Chan(channel.fd, old(channel.index), channel.events)).poller
    {
      ghost var writing := channel.events * WRITE_EVENT;
      assert Out in channel.events <==> Out in writing;
      if !channel.IsWriting() {
        C.NextIndexIsUpdate(PollerView(), channel, channel.View().(events := channel.events + WRITE_EVENT));
        channel.EnableWriting();
      }
    }

    /** The effect on everything the connection touches. */
    twostate predicate Follows(e: C.Effect, p: Poller<Channel>, was: C.Conn)
      requires outputBuffer.Valid()
      reads this, outputBuffer, outputBuffer.buffer, channel, channel.poller, loop
    {
      && View() == e.conn
      && PollerView() == C.PollerAfter(p, channel, was, e)
      && loop.pending == old(loop.pending) + Bound(e.posts)
    }

    method SendInLoop(data: seq<Byte>, wr: WriteResult)
      requires Valid() && (wr.Wrote? ==> wr.n <= |data|)
      modifies this`wire, this`offered, outputBuffer, outputBuffer.buffer, channel`events, channel`index
      modifies channel.poller`channels, channel.poller`kernel, loop`pending, loop`queued, loop`counter
      ensures Valid()
      ensures Follows(C.SendInLoop(old(View()), data, wr), old(PollerView()), old(View()))
    {
      if state == C.kDisconnected {
        offered := offered + [C.Message(data, false)];
        return;
      }
      SendOpen(data, wr);
    }

    method SendOpen(data: seq<Byte>, wr: WriteResult)
      requires Valid() && (wr.Wrote? ==> wr.n <= |data|) && state != C.kDisconnected
      modifies this`wire, this`offered, outputBuffer, outputBuffer.buffer, channel`events, channel`index
      modifies channel.poller`channels, channel.poller`kernel, loop`pending, loop`queued, loop`counter
      ensures Valid()
      ensures Follows(C.SendInLoop(old(View()), data, wr), old(PollerView()), old(View()))
    {
      var nwrite, faultError, completed := TryWrite(data, wr);
      if !faultError && |data| - nwrite > 0 {
        var high := KeepRest(data, nwrite);
      }
    }

    /** `send`: at once on the connection's own thread, through its loop's queue from any
        other; nothing unless the connection is up. */
    method Send(data: seq<Byte>, wr: WriteResult, inLoopThread: bool)
      requires Valid() && (wr.Wrote? ==> wr.n <= |data|)
      modifies this`wire, this`offered, outputBuffer, outputBuffer.buffer, channel`events, channel`index
      modifies channel.poller`channels, channel.poller`kernel, loop`pending, loop`queued, loop`counter
      ensures Valid()
      ensures old(state) == C.kConnected && inLoopThread ==>
                Follows(C.SendInLoop(old(View()), data, wr), old(PollerView()), old(View()))
      ensures !(old(state) == C.kConnected && inLoopThread) ==>
                && View() == old(View()) && PollerView() == old(PollerView())
                && loop.pending == old(loop.pending)
                     + if old(state) == C.kConnected then [SendLater(this, data)] else []
    {
      if state == C.kConnected {
        if inLoopThread {
          SendInLoop(data, wr);
        } else {
          var ranNow := loop.RunInLoop(SendLater(this, data), false);
        }
      }
    }

    method ShutdownInLoop()
      requires Valid()
      modifies this`shutWr, this`shutRan
      ensures Valid() && View() == C.ShutdownInLoop(old(View()))
      ensures shutRan && (shutWr <==> old(shutWr) || Out !in channel.events)
    {
      ghost var writing := channel.events * WRITE_EVENT;
      assert Out in channel.events <==> Out in writing;
      shutRan := true;
      if !channel.IsWriting() {
        shutWr := true;
      }
    }

    /** `shutdown`: the flag is set by the calling thread, the rest runs on the loop. */
    method Shutdown(inLoopThread: bool)
      requires Valid()
      modifies this`state, this`shutWr, this`shutRan, loop`pending, loop`queued, loop`counter
      ensures Valid() && PollerView() == old(PollerView())
      ensures View() ==
              if old(state) != C.kConnected then old(View())
              else
                var flagged := old(View()).(state := C.kDisconnecting);
                if inLoopThread then C.ShutdownInLoop(flagged) else flagged
      ensures loop.pending == old(loop.pending)
                + if old(state) == C.kConnected && !inLoopThread then [ShutdownLater(this)] else []
    {
      if state == C.kConnected {
        state := C.kDisconnecting;
        var ranNow := loop.RunInLoop(ShutdownLater(this), inLoopThread);
        if ranNow {
          ShutdownInLoop();
        }
      }
    }

    method HandleWrite(wr: WriteResult)
      requires Valid() && (wr.Wrote? ==> wr.n <= |View().out|)
      modifies this`wire, this`shutWr, this`shutRan, outputBuffer, channel`events, channel`index
      modifies channel.poller`channels, channel.poller`kernel, loop`pending, loop`queued, loop`counter
      ensures Valid()
      ensures Follows(C.HandleWrite(old(View()), wr), old(PollerView()), old(View()))
    {
      ghost var writing := channel.events * WRITE_EVENT;
      assert Out in channel.events <==> Out in writing;
      if channel.IsWriting() {
        var n, taken := outputBuffer.WriteFd(wr);
        wire := wire + taken;
        if n > 0 {
          outputBuffer.Retrieve(n);
          if outputBuffer.ReadableBytes() == 0 {
            Drained();
          }
        }
      }
    }

    /** The buffer has just run empty. */
    method Drained()
      requires Valid()
      modifies this`shutWr, this`shutRan, channel`events, channel`index
      modifies channel.poller`channels, channel.poller`kernel, loop`pending, loop`queued, loop`counter
      ensures Valid()
      ensures var c := C.WithInterest(old(View()), old(View()).events - WRITE_EVENT);
              View() == if c.state == C.kDisconnecting then C.ShutdownInLoop(c) else c
      ensures PollerView() ==
              UpdateChannel(old(PollerView()), channel, Chan(channel.fd, old(channel.index), channel.events)).poller
      ensures loop.pending == old(loop.pending) + Bound(if hasWriteComplete then [C.WriteComplete] else [])
    {
      StopWriting();
      if hasWriteComplete {
        loop.QueueInLoop(Notify(this, C.WriteComplete), true);
      }
      if state == C.kDisconnecting {
        ShutdownInLoop();
      }
    }

    method StopWriting()
      requires Valid()
      modifies channel`events, channel`index, channel.poller`channels, channel.poller`kernel
      ensures Valid()
      ensures View() == C.WithInterest(old(View()), old(View()).events - WRITE_EVENT)
      ensures PollerView() ==
              UpdateChannel(old(PollerView()), channel, Chan(channel.fd, old(channel.index), channel.events)).poller
    {
      C.NextIndexIsUpdate(PollerView(), channel, channel.View().(events := channel.events - WRITE_EVENT));
      channel.DisableWriting();
    }

    method ConnectEstablished()
      requires Valid()
      modifies this`state, this`edges, channel`tied, channel`events, channel`index
      modifies channel.poller`channels, channel.poller`kernel
      ensures Valid() && channel.tied && state == C.kConnected
      ensures Polled()
      ensures Follows(C.ConnectEstablished(old(View())), old(PollerView()), old(View()))
    {
      state := C.kConnected;
      edges := edges + [C.Up];
      Register();
    }

    /** The kernel reports readable and priority data for the connection. */
    ghost predicate Polled()
      reads channel, channel.poller
    {
      && channel.index == KAdded && channel.fd in channel.poller.kernel
      && channel.poller.kernel[channel.fd] == channel.events && In in channel.events && Pri in channel.events
    }

    /** Ties the channel to its connection, and starts reading. */
    method Register()
      requires Valid()
      modifies channel`tied, channel`events, channel`index, channel.poller`channels, channel.poller`kernel
      ensures Valid() && channel.tied
      ensures View() == C.WithInterest(old(View()), old(View()).events + READ_EVENT)
      ensures PollerView() ==
              UpdateChannel(old(PollerView()), channel, Chan(channel.fd, old(channel.index), channel.events)).poller
      ensures Polled()
    {
      channel.Tie();
      C.NextIndexIsUpdate(PollerView(), channel, channel.View().(events := channel.events + READ_EVENT));
      channel.EnableReading();
      Registered();
    }

    /** A registered channel is in the kernel's set with its own mask. */
    lemma Registered()
      requires channel.Ready() && channel.index == KAdded
      ensures channel.fd in channel.poller.kernel && channel.poller.kernel[channel.fd] == channel.events
    {
      assert IndexOk(PollerView(), channel, channel.poller.Table()[channel]);
    }

    /** Down, with every interest off: the start of both ways to end a connection. */
    method GoDown()
      requires Valid()
      modifies this`state, this`edges, channel`events, channel`index
      modifies channel.poller`channels, channel.poller`kernel
      ensures Valid()
      ensures Follows(C.Disconnect(old(View())), old(PollerView()), old(View()))
    {
      state := C.kDisconnected;
      C.NextIndexIsUpdate(PollerView(), channel, channel.View().(events := NONE_EVENT));
      channel.DisableAll();
      edges := edges + [C.Down];
    }

    /** `handleClose`; the caller then hands the connection to the server's close callback. */
    method HandleClose()
      requires Valid()
      modifies this`state, this`edges, channel`events, channel`index
      modifies channel.poller`channels, channel.poller`kernel
      ensures Valid()
      ensures Follows(C.Disconnect(old(View())), old(PollerView()), old(View()))
    {
      GoDown();
    }

    /** `connectDestroyed`: whatever happened before, the channel leaves no trace. */
    method ConnectDestroyed()
      requires Valid()
      modifies this`state, this`edges, channel`events, channel`index
      modifies channel.poller`channels, channel.poller`kernel
      ensures Valid()
      ensures var e := C.Apply(old(View()), C.Destroy); View() == C.Apply(e.conn, C.Detach).conn
      ensures var e := C.Apply(old(View()), C.Destroy);
              PollerView() == RemoveChannel(C.PollerAfter(old(PollerView()), channel, old(View()), e), e.conn.View()).poller
      ensures channel.index == KNew && channel.fd !in channel.poller.channels && channel.fd !in channel.poller.kernel
    {
      if state == C.kConnected {
        GoDown();
      }
      channel.Remove();
    }

    /** `handleRead`: the stream reaches the input buffer whole; its end closes. */
    method HandleRead(answer: ReadResult) returns (outcome: ReadOutcome)
      requires Valid() && (answer.Received? ==> |answer.bytes| <= inputBuffer.ReadCapacity())
      modifies inputBuffer, inputBuffer.buffer, this`state, this`edges, channel`events, channel`index
      modifies channel.poller`channels, channel.poller`kernel
      ensures Valid()
      ensures outcome == match answer
                         case Received(bytes) => if bytes == [] then PeerClosed else MessageRead
                         case ReadFailed(errno) => ReadError(errno)
      ensures inputBuffer.Contents() == old(inputBuffer.Contents()) + if answer.Received? then answer.bytes else []
      ensures outcome.PeerClosed? ==> Follows(C.Disconnect(old(View())), old(PollerView()), old(View()))
      ensures !outcome.PeerClosed? ==> View() == old(View()) && PollerView() == old(PollerView())
    {
      var n, savedErrno := inputBuffer.ReadFd(answer);
      if n > 0 {
        outcome := MessageRead;
      } else if n == 0 {
        HandleClose();
        outcome := PeerClosed;
      } else {
        outcome := ReadError(savedErrno);
      }
    }
  }
}
