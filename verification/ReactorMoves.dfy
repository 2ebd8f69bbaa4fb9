/** What a step does to the loops, in one form for almost every step: a functor taken, some
    queued, another frame. From it, what happens to the removal of one connection: what is
    under way stays under way, and nothing is destroyed twice. */
module ReactorMoves {
  import opened Registration
  import opened ByteBuffer
  import opened Reactor
  import opened ReactorInvariant
  import C = Connection

  /** Loop `l` takes a functor if `pop`, `fs` are queued on loop `m`, and `fr` is the frame of
      loop `l` afterwards. */
  datatype Move = Move(l: nat, pop: bool, m: nat, fs: seq<Task>, fr: Frame)

  /** What is left of a handler after its first piece. */
  function NextOps(ops: seq<FrameOp>, read: ReadAnswer): seq<FrameOp>
    requires ops != []
  {
    if ops[0] == Handle(CloseCallback) then [UserCallback, PostRemove] + ops[1..]
    else if ops[0] == Handle(ReadCallback) && read.GotBytes? then [UserCallback] + ops[1..]
    else if ops[0] == Handle(ReadCallback) && read.GotEof? then [Handle(CloseCallback)] + ops[1..]
    else ops[1..]
  }

  /** The operation a piece of a handler performs, if any. */
  function HandlerOp(op: FrameOp, wr: WriteResult): C.Op
    requires op in {DoDetach, Handle(CloseCallback), Handle(WriteCallback)}
  {
    if op == DoDetach then C.Detach else if op == Handle(CloseCallback) then C.Close else C.WriteReady(wr)
  }

  function Posts(k: C.Conn, c: ConnId, op: C.Op): seq<Task>
    requires C.Possible(k, op)
  {
    Tasks(c, C.Apply(k, op).posts)
  }

  function DestroyOps(k: C.Conn): seq<FrameOp> {
    (if k.state == C.kConnected then [UserCallback] else []) + [DoDetach]
  }

  ghost function HandlerMove(s: System, l: nat, read: ReadAnswer, wr: WriteResult): Move
    requires Enabled(s, RunOp(l, read, wr))
  {
    var c, ops := s.loops[l].frame.c, s.loops[l].frame.ops;
    var k, fr := s.conns[c], Frame(c, NextOps(ops, read));
    if ops[0] == PostRemove then
      if l == 0 then Move(l, false, k.loop, [Destroyed(c)], fr) else Move(l, false, 0, [RemoveInLoop(c)], fr)
    else if ops[0] in {DoDetach, Handle(CloseCallback), Handle(WriteCallback)} then
      Move(l, false, k.loop, Posts(k, c, HandlerOp(ops[0], wr)), fr)
    else Move(l, false, l, [], fr)
  }

  ghost function FunctorMove(s: System, l: nat, wr: WriteResult): Move
    requires Enabled(s, RunTask(l, wr))
  {
    match s.loops[l].batch[s.loops[l].pos]
    case UserTask => Move(l, true, l, [], UserFrame)
    case Notify(c, _) => Move(l, true, l, [], Frame(c, [UserCallback]))
    case Established(c) =>
      Move(l, true, s.conns[c].loop, Posts(s.conns[c], c, C.Establish), Frame(c, [UserCallback]))
    case Destroyed(c) =>
      Move(l, true, s.conns[c].loop, Posts(s.conns[c], c, C.Destroy), Frame(c, DestroyOps(s.conns[c])))
    case RemoveInLoop(c) => Move(l, true, s.conns[c].loop, [Destroyed(c)], NoFrame)
    case SendTask(c, data) => Move(l, true, s.conns[c].loop, Posts(s.conns[c], c, C.Send(data, wr)), NoFrame)
    case ShutdownTask(c) => Move(l, true, s.conns[c].loop, Posts(s.conns[c], c, C.ShutdownRun), NoFrame)
  }

  ghost function MoveOf(s: System, a: Action): Move
    requires Placed(s) && Enabled(s, a) && !a.SwapPending? && !a.EndBatch?
  {
    var none := Move(0, false, 0, [], s.loops[0].frame);
    match a
    case Accept(_, _, _, _) =>
      var l := Place(|s.loops| - 1, s.nextId);
      if l == 0 || l >= |s.loops| then Move(0, false, 0, [], Frame(s.nextId, [UserCallback]))
      else Move(0, false, l, [Established(s.nextId)], s.loops[0].frame)
    case Poll(l, _) => Move(l, false, l, [], NoFrame)
    case BeginEvent(l) =>
      var r := s.loops[l].active[0];
      Move(l, false, l, [], if Alive(s, r.c) then Frame(r.c, Handlers(Dispatch(r.revents))) else NoFrame)
    case RunOp(l, read, wr) => HandlerMove(s, l, read, wr)
    case EndFrame(l) => Move(l, false, l, [], NoFrame)
    case RunTask(l, wr) => FunctorMove(s, l, wr)
    case Resume(l) => Move(l, false, l, [], UserFrame)
    case UserSend(t, c, data, wr) =>
      var l := s.conns[c].loop;
      if s.conns[c].state == C.kConnected && t == OnLoop(l)
      then Move(l, false, l, Posts(s.conns[c], c, C.Send(data, wr)), s.loops[l].frame) else none
    case UserQueue(_, l) => Move(l, false, l, [UserTask], s.loops[l].frame)
    case Deliver(i) =>
      var l := s.conns[s.inflight[i].c].loop;
      Move(l, false, l, [s.inflight[i]], s.loops[l].frame)
    case DestroyServer(c) =>
      var l := s.conns[c].loop;
      if l == 0 then Move(0, false, 0, Posts(s.conns[c], c, C.Destroy), Frame(c, DestroyOps(s.conns[c])))
      else Move(0, false, l, [Destroyed(c)], s.loops[0].frame)
    case _ => none
  }

  ghost predicate Fits(lp: Loop, lp': Loop, pop: bool, fs: seq<Task>, fr: Frame) {
    && lp'.batch == lp.batch && lp'.pos == lp.pos + (if pop then 1 else 0)
    && lp'.pending == lp.pending + fs && lp'.frame == fr
  }

  /** What loop `i` becomes. */
  ghost predicate Moves(s: System, s': System, mv: Move, i: nat)
    requires i < |s.loops| == |s'.loops|
  {
    && Fits(s.loops[i], s'.loops[i], mv.pop && i == mv.l, if i == mv.m then mv.fs else [],
            if i == mv.l then mv.fr else s.loops[i].frame)
    && (i != mv.l ==> s'.loops[i].phase == s.loops[i].phase && s'.loops[i].active == s.loops[i].active)
  }

  ghost predicate MovesBy(s: System, s': System, mv: Move) {
    && |s'.loops| == |s.loops| && mv.l < |s.loops| && mv.m < |s.loops|
    && (mv.pop ==> s.loops[mv.l].pos < |s.loops[mv.l].batch|)
    && forall i :: 0 <= i < |s.loops| ==> Moves(s, s', mv, i)
  }

  // Each step is such a move.

  function MovedLoops(s: System, mv: Move): seq<Loop>
    requires mv.l < |s.loops| && mv.m < |s.loops|
  {
    var s1 := if mv.pop then SetLoop(s, mv.l, Popped(s.loops[mv.l])) else s;
    SetFrame(Append(s1, mv.m, mv.fs), mv.l, mv.fr).loops
  }

  lemma ClosedForm(s: System, s': System, mv: Move)
    requires mv.l < |s.loops| && mv.m < |s.loops| && s'.loops == MovedLoops(s, mv)
    requires mv.pop ==> s.loops[mv.l].pos < |s.loops[mv.l].batch|
    ensures MovesBy(s, s', mv)
  {
    forall i | 0 <= i < |s.loops| ensures Moves(s, s', mv, i) {
      assert s.loops[i].pending + [] == s.loops[i].pending;
    }
  }

  lemma NoAppend(s: System, m: nat)
    requires m < |s.loops|
    ensures Append(s, m, []) == s
  {
    assert s.loops[m].pending + [] == s.loops[m].pending;
    assert s.loops[m := s.loops[m]] == s.loops;
  }

  lemma SameFrame(s: System, l: nat)
    requires l < |s.loops|
    ensures SetFrame(s, l, s.loops[l].frame) == s
  {
    assert s.loops[l := s.loops[l]] == s.loops;
  }

  lemma RemovalMoves(s: System, l: nat, read: ReadAnswer, wr: WriteResult)
    requires Placed(s) && Enabled(s, RunOp(l, read, wr)) && s.loops[l].frame.ops[0] == PostRemove
    ensures DoRunOp(s, l, read, wr).loops == MovedLoops(s, HandlerMove(s, l, read, wr))
  {}

  lemma OperationMoves(s: System, l: nat, read: ReadAnswer, wr: WriteResult)
    requires Placed(s) && Enabled(s, RunOp(l, read, wr))
    requires s.loops[l].frame.ops[0] in {DoDetach, Handle(CloseCallback), Handle(WriteCallback)}
    ensures DoRunOp(s, l, read, wr).loops == MovedLoops(s, HandlerMove(s, l, read, wr))
  {}

  lemma HandlerMoves(s: System, l: nat, read: ReadAnswer, wr: WriteResult)
    requires Placed(s) && Enabled(s, RunOp(l, read, wr))
    ensures MovesBy(s, DoRunOp(s, l, read, wr), HandlerMove(s, l, read, wr))
  {
    var op := s.loops[l].frame.ops[0];
    if op == PostRemove {
      RemovalMoves(s, l, read, wr);
    } else if op in {DoDetach, Handle(CloseCallback), Handle(WriteCallback)} {
      OperationMoves(s, l, read, wr);
    } else {
      NoAppend(s, l);
    }
    ClosedForm(s, DoRunOp(s, l, read, wr), HandlerMove(s, l, read, wr));
  }

  lemma FunctorCloses(s: System, l: nat, wr: WriteResult)
    requires Placed(s) && Enabled(s, RunTask(l, wr))
    ensures DoRunTask(s, l, wr).loops == MovedLoops(s, FunctorMove(s, l, wr))
  {
    var f := s.loops[l].batch[s.loops[l].pos];
    if f.UserTask? || f.Notify? {
      NoAppend(SetLoop(s, l, Popped(s.loops[l])), l);
    } else if f.RemoveInLoop? || f.SendTask? || f.ShutdownTask? {
      SameFrame(DoRunTask(s, l, wr), l);
    }
  }

  lemma FunctorMoves(s: System, l: nat, wr: WriteResult)
    requires Placed(s) && Enabled(s, RunTask(l, wr))
    ensures MovesBy(s, DoRunTask(s, l, wr), FunctorMove(s, l, wr))
  {
    FunctorCloses(s, l, wr);
    ClosedForm(s, DoRunTask(s, l, wr), FunctorMove(s, l, wr));
  }

  lemma AcceptMoves(s: System, a: Action)
    requires Inv(s) && Enabled(s, a) && a.Accept?
    ensures MovesBy(s, Do(s, a), MoveOf(s, a))
  {
    var l := Place(|s.loops| - 1, s.nextId);
    PlaceFits(|s.loops| - 1, s.nextId);
    if |s.loops| == 1 {
      DirectShape(s, a);
      NoAppend(s, 0);
    } else {
      SameFrame(Append(s, l, [Established(s.nextId)]), 0);
    }
    ClosedForm(s, Do(s, a), MoveOf(s, a));
  }

  lemma DestroyServerMoves(s: System, c: ConnId)
    requires Placed(s) && Enabled(s, DestroyServer(c))
    ensures MovesBy(s, Do(s, DestroyServer(c)), MoveOf(s, DestroyServer(c)))
  {
    if s.conns[c].loop != 0 {
      SameFrame(Append(s, s.conns[c].loop, [Destroyed(c)]), 0);
    }
    ClosedForm(s, Do(s, DestroyServer(c)), MoveOf(s, DestroyServer(c)));
  }

  lemma SendMoves(s: System, a: Action)
    requires Placed(s) && Enabled(s, a) && a.UserSend?
    ensures MovesBy(s, Do(s, a), MoveOf(s, a))
  {
    SameFrame(Append(s, MoveOf(s, a).m, MoveOf(s, a).fs), MoveOf(s, a).l);
    NoAppend(s, 0);
    ClosedForm(s, Do(s, a), MoveOf(s, a));
  }

  /** A step that leaves the loops alone, or at most queues one functor. */
  lemma QueueMoves(s: System, a: Action)
    requires Placed(s) && Enabled(s, a) && (a.UserQueue? || a.Deliver? || a.Hold? || a.Drop?)
    ensures MovesBy(s, Do(s, a), MoveOf(s, a))
  {
    SameFrame(Append(s, MoveOf(s, a).m, MoveOf(s, a).fs), MoveOf(s, a).l);
    NoAppend(s, 0);
    ClosedForm(s, Do(s, a), MoveOf(s, a));
  }

  lemma ShutdownMoves(s: System, a: Action)
    requires Placed(s) && Enabled(s, a) && a.UserShutdown?
    ensures MovesBy(s, Do(s, a), MoveOf(s, a))
  {
    NoPostsAppended(s, a.c, C.ShutdownFlag);
    NoPostsAppended(ConnDo(s, a.c, C.ShutdownFlag), a.c, C.ShutdownRun);
    NoAppend(s, 0);
    SameFrame(s, 0);
    ClosedForm(s, Do(s, a), MoveOf(s, a));
  }

  /** Polling, and starting or ending a handler. */
  lemma TurnMoves(s: System, a: Action)
    requires Placed(s) && Enabled(s, a) && (a.Poll? || a.BeginEvent? || a.EndFrame? || a.Resume?)
    ensures MovesBy(s, Do(s, a), MoveOf(s, a))
  {
    var mv, s' := MoveOf(s, a), Do(s, a);
    forall i | 0 <= i < |s.loops| ensures Moves(s, s', mv, i) {
      assert s.loops[i].pending + [] == s.loops[i].pending;
    }
  }

  lemma StepMoves(s: System, a: Action)
    requires Inv(s) && Enabled(s, a) && !a.SwapPending? && !a.EndBatch?
    ensures MovesBy(s, Do(s, a), MoveOf(s, a))
  {
    match a
    case Accept(_, _, _, _) => AcceptMoves(s, a);
    case RunOp(l, read, wr) => HandlerMoves(s, l, read, wr);
    case RunTask(l, wr) => FunctorMoves(s, l, wr);
    case UserSend(_, _, _, _) => SendMoves(s, a);
    case UserShutdown(_, _) => ShutdownMoves(s, a);
    case DestroyServer(c) => DestroyServerMoves(s, c);
    case UserQueue(_, _) => QueueMoves(s, a);
    case Deliver(_) => QueueMoves(s, a);
    case Hold(_) => QueueMoves(s, a);
    case Drop(_) => QueueMoves(s, a);
    case _ => TurnMoves(s, a);
  }

  /** The two steps that are not: they change the queue's form, not what it holds. */
  lemma PhaseKeepsRest(s: System, a: Action)
    requires Inv(s) && Enabled(s, a) && (a.SwapPending? || a.EndBatch?)
    ensures |Do(s, a).loops| == |s.loops|
    ensures forall i :: 0 <= i < |s.loops| ==>
              && Do(s, a).loops[i].pos <= |Do(s, a).loops[i].batch|
              && Rest(Do(s, a).loops[i]) == Rest(s.loops[i]) && Do(s, a).loops[i].frame == s.loops[i].frame
              && (i != a.l ==> Do(s, a).loops[i] == s.loops[i])
  {
    var lp, lp' := s.loops[a.l], Do(s, a).loops[a.l];
    assert LoopOk(s.conns, a.l, lp);
    assert Rest(lp') == Rest(lp);
  }

  lemma FitsRest(lp: Loop, lp': Loop, pop: bool, fs: seq<Task>, fr: Frame)
    requires Fits(lp, lp', pop, fs, fr) && lp.pos <= |lp.batch| && (pop ==> lp.pos < |lp.batch|)
    ensures Rest(lp') == (if pop then Rest(lp)[1..] else Rest(lp)) + fs
    ensures pop ==> Rest(lp) == [lp.batch[lp.pos]] + Rest(lp)[1..]
  {
    if pop {
      RestPopped(lp);
      assert Rest(lp) == [lp.batch[lp.pos]] + Rest(Popped(lp));
    }
  }

  lemma NowQueued(s: System, s': System, mv: Move, f: Task)
    requires Placed(s) && MovesBy(s, s', mv) && f in mv.fs
    ensures s'.loops[mv.m].pos <= |s'.loops[mv.m].batch| && f in Rest(s'.loops[mv.m])
  {
    assert Moves(s, s', mv, mv.m);
    FitsRest(s.loops[mv.m], s'.loops[mv.m], mv.pop && mv.m == mv.l, mv.fs, s'.loops[mv.m].frame);
  }

  // The removal of one connection.

  function DetachCount(fr: Frame, c: ConnId): nat {
    if fr.Frame? && fr.c == c then multiset(fr.ops)[DoDetach] else 0
  }

  /** How often the loop is going to destroy `c`, the time it is at it included. */
  function Going(lp: Loop, c: ConnId): nat
    requires lp.pos <= |lp.batch|
  {
    multiset(Rest(lp))[Destroyed(c)] + DetachCount(lp.frame, c)
  }

  predicate Closes(fr: Frame, c: ConnId) {
    fr.Frame? && fr.c == c && PostRemove in fr.ops
  }

  /** `handleClose` has still to call the close callback. */
  predicate Closing(lp: Loop, c: ConnId) {
    Closes(lp.frame, c)
  }

  ghost predicate Smooth(lp: Loop, lp': Loop, c: ConnId) {
    && lp.pos <= |lp.batch| && lp'.pos <= |lp'.batch|
    && Going(lp', c) == Going(lp, c)
    && (RemoveInLoop(c) in Rest(lp) ==> RemoveInLoop(c) in Rest(lp'))
    && (Closing(lp, c) ==> Closing(lp', c))
  }

  ghost predicate AllSmooth(s: System, s': System, c: ConnId) {
    |s'.loops| == |s.loops| && forall l :: 0 <= l < |s.loops| ==> Smooth(s.loops[l], s'.loops[l], c)
  }

  /** The functor taken is accounted for by the frame, and nothing else is destroyed. */
  ghost predicate SmoothMove(s: System, mv: Move, c: ConnId)
    requires mv.l < |s.loops| && (mv.pop ==> s.loops[mv.l].pos < |s.loops[mv.l].batch|)
  {
    var lp := s.loops[mv.l];
    && Destroyed(c) !in mv.fs
    && (Closing(lp, c) ==> Closes(mv.fr, c))
    && (mv.pop ==> lp.batch[lp.pos] != RemoveInLoop(c))
    && DetachCount(mv.fr, c) ==
         DetachCount(lp.frame, c) + if mv.pop && lp.batch[lp.pos] == Destroyed(c) then 1 else 0
  }

  lemma FitsSmooth(lp: Loop, lp': Loop, pop: bool, fs: seq<Task>, fr: Frame, c: ConnId)
    requires Fits(lp, lp', pop, fs, fr) && lp.pos <= |lp.batch| && (pop ==> lp.pos < |lp.batch|)
    requires Destroyed(c) !in fs && (Closing(lp, c) ==> Closes(fr, c))
    requires pop ==> lp.batch[lp.pos] != RemoveInLoop(c)
    requires DetachCount(fr, c) == DetachCount(lp.frame, c) + if pop && lp.batch[lp.pos] == Destroyed(c) then 1 else 0
    ensures Smooth(lp, lp', c)
  {
    FitsRest(lp, lp', pop, fs, fr);
  }

  lemma MoveIsSmooth(s: System, s': System, mv: Move, c: ConnId)
    requires Placed(s) && MovesBy(s, s', mv) && SmoothMove(s, mv, c)
    ensures AllSmooth(s, s', c)
  {
    forall i | 0 <= i < |s.loops| ensures Smooth(s.loops[i], s'.loops[i], c) {
      assert Moves(s, s', mv, i);
      FitsSmooth(s.loops[i], s'.loops[i], mv.pop && i == mv.l, if i == mv.m then mv.fs else [],
                 if i == mv.l then mv.fr else s.loops[i].frame, c);
    }
  }

  /** The step is a hand-over in the removal of `c`. */
  ghost predicate HandsOver(s: System, a: Action, c: ConnId)
    requires Enabled(s, a)
  {
    match a
    case RunOp(l, _, _) => s.loops[l].frame.ops[0] in {PostRemove, DoDetach} && s.loops[l].frame.c == c
    case RunTask(l, _) => s.loops[l].batch[s.loops[l].pos] == RemoveInLoop(c)
    case DestroyServer(d) => d == c
    case _ => false
  }

  lemma PostsAreNotices(k: C.Conn, c: ConnId, op: C.Op)
    requires C.Possible(k, op)
    ensures forall f :: f in Posts(k, c, op) ==> f.Notify? && f.c == c
  {
    TasksAreNotices(c, C.Apply(k, op).posts);
  }

  lemma NextOpsCount(ops: seq<FrameOp>, read: ReadAnswer)
    requires ops != []
    ensures ops[0] != DoDetach ==> multiset(NextOps(ops, read))[DoDetach] == multiset(ops)[DoDetach]
    ensures ops[0] == DoDetach ==> multiset(NextOps(ops, read))[DoDetach] + 1 == multiset(ops)[DoDetach]
    ensures PostRemove in ops && ops[0] != PostRemove ==> PostRemove in NextOps(ops, read)
  {
    assert ops == [ops[0]] + ops[1..];
  }

  lemma HandlerIsSmooth(s: System, l: nat, read: ReadAnswer, wr: WriteResult, c: ConnId)
    requires Placed(s) && Enabled(s, RunOp(l, read, wr)) && !HandsOver(s, RunOp(l, read, wr), c)
    ensures SmoothMove(s, HandlerMove(s, l, read, wr), c)
  {
    var d, ops := s.loops[l].frame.c, s.loops[l].frame.ops;
    NextOpsCount(ops, read);
    if ops[0] in {DoDetach, Handle(CloseCallback), Handle(WriteCallback)} {
      PostsAreNotices(s.conns[d], d, HandlerOp(ops[0], wr));
    }
  }

  lemma FunctorIsSmooth(s: System, l: nat, wr: WriteResult, c: ConnId)
    requires Placed(s) && Enabled(s, RunTask(l, wr)) && s.loops[l].batch[s.loops[l].pos] != RemoveInLoop(c)
    ensures SmoothMove(s, FunctorMove(s, l, wr), c)
  {
    match s.loops[l].batch[s.loops[l].pos]
    case Established(d) => PostsAreNotices(s.conns[d], d, C.Establish);
    case Destroyed(d) =>
      PostsAreNotices(s.conns[d], d, C.Destroy);
      DestroyOpsCount(s.conns[d]);
    case SendTask(d, data) => PostsAreNotices(s.conns[d], d, C.Send(data, wr));
    case ShutdownTask(d) => PostsAreNotices(s.conns[d], d, C.ShutdownRun);
    case _ =>
  }

  lemma DestroyOpsCount(k: C.Conn)
    ensures multiset(DestroyOps(k))[DoDetach] == 1
  {}

  lemma UserIsSmooth(s: System, a: Action, c: ConnId)
    requires Placed(s) && InflightOk(s) && Enabled(s, a) && (a.UserSend? || a.Deliver? || a.UserShutdown? || a.UserQueue? || a.Hold? || a.Drop?)
    ensures MoveOf(s, a).l < |s.loops| && SmoothMove(s, MoveOf(s, a), c)
  {
    if a.UserSend? {
      PostsAreNotices(s.conns[a.c], a.c, C.Send(a.data, a.wr));
    }
    if a.Deliver? {
      assert s.inflight[a.i] in s.inflight;
    }
  }

  lemma TurnIsSmooth(s: System, a: Action, c: ConnId)
    requires Placed(s) && Enabled(s, a) && (a.Poll? || a.BeginEvent? || a.EndFrame? || a.Resume?)
    ensures MoveOf(s, a).l < |s.loops| && SmoothMove(s, MoveOf(s, a), c)
  {
    if a.BeginEvent? {
      assert DoDetach !in Handlers(Dispatch(s.loops[a.l].active[0].revents));
    }
  }

  lemma MainIsSmooth(s: System, a: Action, c: ConnId)
    requires Placed(s) && Enabled(s, a) && (a.Accept? || (a.DestroyServer? && a.c != c))
    ensures MoveOf(s, a).l < |s.loops| && SmoothMove(s, MoveOf(s, a), c)
  {
    if a.DestroyServer? {
      PostsAreNotices(s.conns[a.c], a.c, C.Destroy);
    }
  }

  lemma StepIsSmooth(s: System, a: Action, c: ConnId)
    requires Inv(s) && Enabled(s, a) && !HandsOver(s, a, c) && !a.SwapPending? && !a.EndBatch?
    requires MovesBy(s, Do(s, a), MoveOf(s, a))
    ensures SmoothMove(s, MoveOf(s, a), c)
  {
    match a
    case RunOp(l, read, wr) => HandlerIsSmooth(s, l, read, wr, c);
    case RunTask(l, wr) => FunctorIsSmooth(s, l, wr, c);
    case Accept(_, _, _, _) => MainIsSmooth(s, a, c);
    case DestroyServer(_) => MainIsSmooth(s, a, c);
    case Poll(_, _) => TurnIsSmooth(s, a, c);
    case BeginEvent(_) => TurnIsSmooth(s, a, c);
    case EndFrame(_) => TurnIsSmooth(s, a, c);
    case Resume(_) => TurnIsSmooth(s, a, c);
    case _ => UserIsSmooth(s, a, c);
  }

  /** Every step but a hand-over keeps the removal of `c` as far as it has got. */
  lemma StepSmooth(s: System, a: Action, c: ConnId)
    requires Inv(s) && Enabled(s, a) && !HandsOver(s, a, c)
    ensures AllSmooth(s, Do(s, a), c)
  {
    if a.SwapPending? || a.EndBatch? {
      PhaseKeepsRest(s, a);
    } else {
      StepMoves(s, a);
      StepIsSmooth(s, a, c);
      MoveIsSmooth(s, Do(s, a), MoveOf(s, a), c);
    }
  }
}
