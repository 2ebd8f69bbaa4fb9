/** The whole server as a machine: the main loop (loop 0), any number of IO loops, user
    threads, and any number of connections, interleaved step by step.

    `Mymuduo/TcpServer.cc`, `Mymuduo/TcpConnection.cc`, `Mymuduo/Channel.cc`,
    `Mymuduo/EventLoop.cc`. A step is a stretch of code no other thread can observe half
    done. Appending to a queue is one step here; the wake-up that follows it is the subject
    of `LoopProtocol`. */
module Reactor {
  import opened Registration
  import opened ByteBuffer
  import C = Connection

  type ConnId = nat

  /** The functors the library queues. All but the two that bind a raw `this` share
      ownership of their connection. */
  datatype Task =
    | Established(c: ConnId)
    | Destroyed(c: ConnId)
    | RemoveInLoop(c: ConnId)
    | Notify(c: ConnId, notice: C.Notice)
    | SendTask(c: ConnId, data: seq<Byte>)
    | ShutdownTask(c: ConnId)
    | UserTask

  predicate Owns(f: Task, c: ConnId) {
    (f.Established? || f.Destroyed? || f.RemoveInLoop? || f.Notify?) && f.c == c
  }

  predicate About(f: Task, c: ConnId) {
    !f.UserTask? && f.c == c
  }

  /** What is left to do of the handler a loop is running. */
  datatype FrameOp = Handle(callback: Callback) | UserCallback | PostRemove | DoDetach

  /** A running handler holds a reference to its connection. */
  datatype Frame = NoFrame | Frame(c: ConnId, ops: seq<FrameOp>) | UserFrame

  datatype Phase = Idle | Dispatching | Calling

  datatype Ready = Ready(c: ConnId, revents: Mask)

  /** One loop. The swapped batch lives, executed functors included, until its end. */
  datatype Loop = Loop(
    pending: seq<Task>,
    batch: seq<Task>,
    pos: nat,
    phase: Phase,
    active: seq<Ready>,
    frame: Frame)

  /** `held` are the references user code keeps; `inflight` the functors whose sender has
      passed its check of `state_` and not yet appended them. */
  datatype System = System(
    conns: map<ConnId, C.Conn>,
    connections: set<ConnId>,
    loops: seq<Loop>,
    pollers: seq<Poller<ConnId>>,
    held: set<ConnId>,
    inflight: seq<Task>,
    nextId: nat)

  datatype Thread = OnLoop(l: nat) | Outside

  datatype ReadAnswer = GotBytes | GotEof | GotError

  datatype Action =
    | Accept(fd: int, mark: nat, wc: bool, hw: bool)
    | Poll(l: nat, ready: seq<Ready>)
    | BeginEvent(l: nat)
    | RunOp(l: nat, read: ReadAnswer, wr: WriteResult)
    | EndFrame(l: nat)
    | SwapPending(l: nat)
    | RunTask(l: nat, wr: WriteResult)
    | EndBatch(l: nat)
    | Resume(l: nat)
    | UserSend(t: Thread, c: ConnId, data: seq<Byte>, wr: WriteResult)
    | UserShutdown(t: Thread, c: ConnId)
    | UserQueue(t: Thread, l: nat)
    | Deliver(i: nat)
    | Hold(c: ConnId)
    | Drop(c: ConnId)
    | DestroyServer(c: ConnId)

  // Ownership.

  ghost predicate HoldsOn(lp: Loop, c: ConnId) {
    || (lp.frame.Frame? && lp.frame.c == c)
    || (exists f :: f in lp.pending && Owns(f, c))
    || (exists f :: f in lp.batch && Owns(f, c))
  }

  /** Some shared reference to the connection exists. The object, its channel and its
      descriptor live exactly as long. */
  ghost predicate Alive(s: System, c: ConnId) {
    || c in s.connections
    || c in s.held
    || exists l :: 0 <= l < |s.loops| && HoldsOn(s.loops[l], c)
  }

  // The pieces steps are made of.

  function Place(threads: nat, k: nat): nat {
    if threads == 0 then 0 else 1 + k % threads
  }

  function NewConn(fd: int, loop: nat, mark: nat, wc: bool, hw: bool): C.Conn {
    C.Conn(fd, loop, mark, wc, hw, C.kConnecting, KNew, NONE_EVENT, [], false, [], [], [], false)
  }

  function Tasks(c: ConnId, posts: seq<C.Notice>): (r: seq<Task>)
    ensures |r| == |posts|
  {
    seq(|posts|, i requires 0 <= i < |posts| => Notify(c, posts[i]))
  }

  function SetLoop(s: System, l: nat, lp: Loop): System
    requires l < |s.loops|
  {
    s.(loops := s.loops[l := lp])
  }

  function Append(s: System, l: nat, fs: seq<Task>): System
    requires l < |s.loops|
  {
    SetLoop(s, l, s.loops[l].(pending := s.loops[l].pending + fs))
  }

  function SetFrame(s: System, l: nat, fr: Frame): System
    requires l < |s.loops|
  {
    SetLoop(s, l, s.loops[l].(frame := fr))
  }

  /** Operation `op` of connection `c`: its own state, its poller's, and the callbacks it
      queues on its loop. */
  function ConnDo(s: System, c: ConnId, op: C.Op): System
    requires Located(s, c) && C.Possible(s.conns[c], op)
  {
    var k := s.conns[c];
    var e := C.Apply(k, op);
    var p := C.PollerAfter(s.pollers[k.loop], c, k, e);
    Append(s.(conns := s.conns[c := e.conn], pollers := s.pollers[k.loop := p]), k.loop, Tasks(c, e.posts))
  }

  predicate Located(s: System, c: ConnId) {
    c in s.conns && s.conns[c].loop < |s.loops| && |s.loops| == |s.pollers|
  }

  function Handlers(calls: seq<Callback>): (r: seq<FrameOp>)
    ensures |r| == |calls|
  {
    seq(|calls|, i requires 0 <= i < |calls| => Handle(calls[i]))
  }

  /** `connectDestroyed` on loop `l`. */
  function StartDestroy(s: System, l: nat, c: ConnId): System
    requires Located(s, c) && l < |s.loops|
  {
    var ops := (if s.conns[c].state == C.kConnected then [UserCallback] else []) + [DoDetach];
    SetFrame(ConnDo(s, c, C.Destroy), l, Frame(c, ops))
  }

  /** `removeConnectionInLoop`, on the main loop. */
  function Forget(s: System, c: ConnId): System
    requires Located(s, c)
  {
    Append(s.(connections := s.connections - {c}), s.conns[c].loop, [Destroyed(c)])
  }

  /** User code runs outside the loops, or on a loop inside a callback or a user functor. */
  predicate UserCode(s: System, t: Thread) {
    || t.Outside?
    || (t.OnLoop? && t.l < |s.loops|
        && (s.loops[t.l].frame.UserFrame?
            || (s.loops[t.l].frame.Frame? && s.loops[t.l].frame.ops != [] && s.loops[t.l].frame.ops[0] == UserCallback)))
  }

  /** The kernel reports a descriptor of its set once, with bits asked for or the two it
      always adds; a hang-up with nothing to read does not come with priority data. */
  ghost predicate Reported(s: System, l: nat, ready: seq<Ready>)
    requires l < |s.pollers|
  {
    && (forall k :: 0 <= k < |ready| ==>
          var c := ready[k].c;
          && c in s.conns && s.conns[c].loop == l
          && s.pollers[l].Maps(s.conns[c].fd, c)
          && s.conns[c].fd in s.pollers[l].kernel
          && ready[k].revents <= s.pollers[l].kernel[s.conns[c].fd] + {Err, Hup}
          && QuietHangup(ready[k].revents))
    && (forall j, k :: 0 <= j < k < |ready| ==> ready[j].c != ready[k].c)
  }

  predicate QuietHangup(revents: Mask) {
    Hup in revents && In !in revents ==> Pri !in revents
  }

  /** `Resume` is a functor that goes on after it destroyed a connection of its own loop.
      `DestroyServer` is the server's destructor at one entry of the map. It runs between two
      turns of the main loop, or inside a functor on it. */
  ghost predicate Enabled(s: System, a: Action) {
    match a
    case Accept(fd, _, _, _) =>
      && 0 < |s.loops| && s.loops[0].phase.Dispatching? && s.loops[0].frame.NoFrame?
      && (forall c :: c in s.conns && Alive(s, c) ==> s.conns[c].fd != fd)
    case Poll(l, ready) =>
      && l < |s.loops| && l < |s.pollers| && s.loops[l].phase.Idle? && s.loops[l].frame.NoFrame?
      && Reported(s, l, ready)
    case BeginEvent(l) =>
      && l < |s.loops| && s.loops[l].phase.Dispatching? && s.loops[l].frame.NoFrame?
      && s.loops[l].active != []
    case RunOp(l, _, wr) =>
      && l < |s.loops| && s.loops[l].frame.Frame? && s.loops[l].frame.ops != []
      && Located(s, s.loops[l].frame.c)
      && (s.loops[l].frame.ops[0] == Handle(WriteCallback) ==>
            C.Answers(s.conns[s.loops[l].frame.c], |s.conns[s.loops[l].frame.c].out|, wr))
    case EndFrame(l) =>
      && l < |s.loops|
      && (s.loops[l].frame.UserFrame? || (s.loops[l].frame.Frame? && s.loops[l].frame.ops == []))
    case SwapPending(l) =>
      && l < |s.loops| && s.loops[l].phase.Dispatching? && s.loops[l].frame.NoFrame?
      && s.loops[l].active == []
    case RunTask(l, wr) =>
      && l < |s.loops| && s.loops[l].phase.Calling? && s.loops[l].frame.NoFrame?
      && s.loops[l].pos < |s.loops[l].batch|
      && var f := s.loops[l].batch[s.loops[l].pos];
         f.UserTask? ||
         (&& Located(s, f.c)
          && (f.SendTask? ==> Alive(s, f.c) && C.Answers(s.conns[f.c], |f.data|, wr))
          && (f.ShutdownTask? ==> Alive(s, f.c)))
    case EndBatch(l) =>
      && l < |s.loops| && s.loops[l].phase.Calling? && s.loops[l].frame.NoFrame?
      && s.loops[l].pos == |s.loops[l].batch|
    case Resume(l) => l < |s.loops| && s.loops[l].phase.Calling? && s.loops[l].frame.NoFrame?
    case UserSend(t, c, data, wr) =>
      && UserCode(s, t) && Located(s, c) && Alive(s, c) && C.Answers(s.conns[c], |data|, wr)
    case UserShutdown(t, c) => UserCode(s, t) && Located(s, c) && Alive(s, c)
    case UserQueue(t, l) => UserCode(s, t) && l < |s.loops|
    case Deliver(i) =>
      i < |s.inflight| && !s.inflight[i].UserTask? && Located(s, s.inflight[i].c)
    case Hold(c) => c in s.conns && Alive(s, c)
    case Drop(c) => c in s.held
    case DestroyServer(c) =>
      && 0 < |s.loops| && c in s.connections && Located(s, c)
      && ((s.loops[0].phase.Idle? && s.loops[0].frame.NoFrame?) || s.loops[0].frame.UserFrame?)
  }

  /** The main loop takes a new descriptor: `newConnection`. */
  ghost function DoAccept(s: System, a: Action): System
    requires a.Accept? && Enabled(s, a) && |s.loops| == |s.pollers|
  {
    var c, loop := s.nextId, Place(|s.loops| - 1, s.nextId);
    var k := NewConn(a.fd, loop, a.mark, a.wc, a.hw);
    var s1 := s.(conns := s.conns[c := k], connections := s.connections + {c}, nextId := c + 1);
    if loop == 0 then SetFrame(ConnDo(s1, c, C.Establish), 0, Frame(c, [UserCallback]))
    else Append(s1, loop, [Established(c)])
  }

  /** The next piece of the handler running on loop `l`. */
  ghost function DoRunOp(s: System, l: nat, read: ReadAnswer, wr: WriteResult): System
    requires Enabled(s, RunOp(l, read, wr))
  {
    var c, rest := s.loops[l].frame.c, s.loops[l].frame.ops[1..];
    match s.loops[l].frame.ops[0]
    case UserCallback => SetFrame(s, l, Frame(c, rest))
    case PostRemove =>
      // removeConnection: at once on the main loop, through its queue from any other.
      var s1 := SetFrame(s, l, Frame(c, rest));
      if l == 0 then Forget(s1, c) else Append(s1, 0, [RemoveInLoop(c)])
    case DoDetach => SetFrame(ConnDo(s, c, C.Detach), l, Frame(c, rest))
    case Handle(cb) =>
      match cb
      case ErrorCallback => SetFrame(s, l, Frame(c, rest))
      case CloseCallback =>
        SetFrame(ConnDo(s, c, C.Close), l, Frame(c, [UserCallback, PostRemove] + rest))
      case WriteCallback => SetFrame(ConnDo(s, c, C.WriteReady(wr)), l, Frame(c, rest))
      case ReadCallback =>
        match read
        case GotBytes => SetFrame(s, l, Frame(c, [UserCallback] + rest))
        case GotEof => SetFrame(s, l, Frame(c, [Handle(CloseCallback)] + rest))
        case GotError => SetFrame(s, l, Frame(c, rest))
  }

  /** The next functor of the batch. */
  ghost function DoRunTask(s: System, l: nat, wr: WriteResult): System
    requires Enabled(s, RunTask(l, wr))
  {
    var f := s.loops[l].batch[s.loops[l].pos];
    var s1 := SetLoop(s, l, s.loops[l].(pos := s.loops[l].pos + 1));
    match f
    case UserTask => SetFrame(s1, l, UserFrame)
    case Established(c) => SetFrame(ConnDo(s1, c, C.Establish), l, Frame(c, [UserCallback]))
    case Destroyed(c) => StartDestroy(s1, l, c)
    case RemoveInLoop(c) => Forget(s1, c)
    case Notify(c, _) => SetFrame(s1, l, Frame(c, [UserCallback]))
    case SendTask(c, data) => ConnDo(s1, c, C.Send(data, wr))
    case ShutdownTask(c) => ConnDo(s1, c, C.ShutdownRun)
  }

  ghost function Do(s: System, a: Action): System
    requires Enabled(s, a) && |s.loops| == |s.pollers|
  {
    match a
    case Accept(_, _, _, _) => DoAccept(s, a)
    case Poll(l, ready) => SetLoop(s, l, s.loops[l].(phase := Dispatching, active := ready))
    case BeginEvent(l) =>
      var lp, r := s.loops[l], s.loops[l].active[0];
      SetLoop(s, l, lp.(active := lp.active[1..],
                        frame := if Alive(s, r.c) then Frame(r.c, Handlers(Dispatch(r.revents))) else NoFrame))
    case RunOp(l, read, wr) => DoRunOp(s, l, read, wr)
    case EndFrame(l) => SetFrame(s, l, NoFrame)
    case SwapPending(l) =>
      SetLoop(s, l, s.loops[l].(phase := Calling, batch := s.loops[l].pending, pos := 0, pending := []))
    case RunTask(l, wr) => DoRunTask(s, l, wr)
    case EndBatch(l) => SetLoop(s, l, s.loops[l].(phase := Idle, batch := [], pos := 0))
    case Resume(l) => SetFrame(s, l, UserFrame)
    case UserSend(t, c, data, wr) =>
      if s.conns[c].state != C.kConnected then s
      else if t == OnLoop(s.conns[c].loop) then ConnDo(s, c, C.Send(data, wr))
      else s.(inflight := s.inflight + [SendTask(c, data)])
    case UserShutdown(t, c) =>
      if s.conns[c].state != C.kConnected then s
      else
        var s1 := ConnDo(s, c, C.ShutdownFlag);
        if t == OnLoop(s.conns[c].loop) then ConnDo(s1, c, C.ShutdownRun)
        else s1.(inflight := s1.inflight + [ShutdownTask(c)])
    case UserQueue(_, l) => Append(s, l, [UserTask])
    case Deliver(i) =>
      var f := s.inflight[i];
      Append(s.(inflight := s.inflight[..i] + s.inflight[i + 1..]), s.conns[f.c].loop, [f])
    case Hold(c) => s.(held := s.held + {c})
    case Drop(c) => s.(held := s.held - {c})
    case DestroyServer(c) =>
      if s.conns[c].loop == 0 then StartDestroy(s.(connections := s.connections - {c}), 0, c)
      else Forget(s, c)
  }

  ghost predicate Initial(s: System) {
    && |s.loops| == |s.pollers| > 0
    && s.conns == map[] && s.connections == {} && s.held == {} && s.inflight == [] && s.nextId == 0
    && (forall l :: 0 <= l < |s.loops| ==> s.loops[l] == Loop([], [], 0, Idle, [], NoFrame))
    && (forall l :: 0 <= l < |s.pollers| ==> s.pollers[l] == Poller(map[], map[]))
  }
}
