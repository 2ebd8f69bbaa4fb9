/** What holds in every run of the machine, without any assumption about the run. */
module ReactorRuns {
  import opened Registration
  import opened ByteBuffer
  import opened Reactor
  import opened ReactorInvariant
  import opened ReactorMoves
  import opened ReactorSteps
  import opened ReactorRemovals
  import C = Connection

  ghost predicate ValidRun(s: System, acts: seq<Action>)
    decreases |acts|, 0
  {
    acts == [] ||
    (&& ValidRun(s, acts[..|acts| - 1])
     && var e := End(s, acts[..|acts| - 1]);
        |e.loops| == |e.pollers| && Enabled(e, acts[|acts| - 1]))
  }

  ghost function End(s: System, acts: seq<Action>): System
    requires ValidRun(s, acts)
    decreases |acts|, 1
  {
    if acts == [] then s else Do(End(s, acts[..|acts| - 1]), acts[|acts| - 1])
  }

  lemma {:induction false} RunKeeps(s: System, acts: seq<Action>)
    requires Inv(s) && ValidRun(s, acts)
    ensures Inv(End(s, acts))
    decreases |acts|
  {
    if acts != [] {
      RunKeeps(s, acts[..|acts| - 1]);
      StepKeeps(End(s, acts[..|acts| - 1]), acts[|acts| - 1]);
    }
  }

  /** The invariant holds in every reachable state, and every connection is accounted for. */
  lemma {:induction false} ReachableInv(s: System, acts: seq<Action>)
    requires Initial(s) && ValidRun(s, acts)
    ensures Inv(End(s, acts)) && Accounted(End(s, acts))
    decreases |acts|
  {
    if acts == [] {
      InitialHolds(s);
    } else {
      ReachableInv(s, acts[..|acts| - 1]);
      StepKeeps(End(s, acts[..|acts| - 1]), acts[|acts| - 1]);
      StepAccounted(End(s, acts[..|acts| - 1]), acts[|acts| - 1]);
    }
  }

  // Each connection, seen on its own, runs the protocol of `Connection`.

  /** How a connection starts out: fresh, or established at once on a server without IO
      loops. Either way on the loop the round robin picks. */
  lemma Born(s: System, a: Action) returns (k: C.Conn, ops: seq<C.Op>)
    requires Inv(s) && a.Accept? && Enabled(s, a)
    ensures C.Fresh(k) && k.loop == Place(|s.loops| - 1, s.nextId) && k.fd == a.fd
    ensures C.ValidRun(k, ops) && Do(s, a).conns[s.nextId] == C.After(k, ops)
    ensures ops == [] || ops == [C.Establish]
    ensures (k.mark, k.hasWriteComplete, k.hasHighWater) == (a.mark, a.wc, a.hw)
  {
    PlaceFits(|s.loops| - 1, s.nextId);
    k := NewConn(a.fd, Place(|s.loops| - 1, s.nextId), a.mark, a.wc, a.hw);
    if |s.loops| == 1 {
      ops := [C.Establish];
      DirectShape(s, a);
      OneOp(k, C.Establish);
    } else {
      ops := [];
    }
  }

  /** `ops` lead from the fresh connection `k` to `c` as it is in `e`. */
  ghost predicate Leads(e: System, c: ConnId, k: C.Conn, ops: seq<C.Op>) {
    && c in e.conns && C.Fresh(k) && C.ValidRun(k, ops) && e.conns[c] == C.After(k, ops)
    && |e.loops| > 0 && k.loop == Place(|e.loops| - 1, c)
  }

  lemma StepSameLoops(s: System, a: Action)
    requires Inv(s) && Enabled(s, a)
    ensures |Do(s, a).loops| == |s.loops|
  {
    if !a.SwapPending? && !a.EndBatch? {
      StepMoves(s, a);
    }
  }

  lemma LeadsOn(e: System, a: Action, c: ConnId, k: C.Conn, ops: seq<C.Op>)
    requires Inv(e) && Enabled(e, a) && Leads(e, c, k, ops)
    ensures Leads(Do(e, a), c, k, ops + OpsOn(e, a, c))
  {
    StepSameLoops(e, a);
    StepProjects(e, a, c);
    C.RunsCompose(k, ops, e.conns[c], OpsOn(e, a, c), Do(e, a).conns[c]);
  }

  lemma LeadsIn(e: System, a: Action, c: ConnId) returns (k: C.Conn, ops: seq<C.Op>)
    requires Inv(e) && Enabled(e, a) && c !in e.conns && c in Do(e, a).conns
    ensures Leads(Do(e, a), c, k, ops)
  {
    OnlyAcceptAdds(e, a, c);
    StepSameLoops(e, a);
    k, ops := Born(e, a);
  }

  /** Every connection of every run, looked at alone, is a run of `Connection` from a fresh
      connection: what is proved there holds here in every interleaving. */
  lemma {:induction false} Projection(s: System, acts: seq<Action>, c: ConnId) returns (k: C.Conn, ops: seq<C.Op>)
    requires Initial(s) && ValidRun(s, acts) && c in End(s, acts).conns
    ensures Leads(End(s, acts), c, k, ops)
    decreases |acts|
  {
    var before := acts[..|acts| - 1];
    var e := End(s, before);
    ReachableInv(s, before);
    if c in e.conns {
      k, ops := Projection(s, before, c);
      LeadsOn(e, acts[|acts| - 1], c, k, ops);
      ops := ops + OpsOn(e, acts[|acts| - 1], c);
    } else {
      k, ops := LeadsIn(e, acts[|acts| - 1], c);
    }
  }

  /** Byte streams in the whole system: whatever the interleaving, short writes and errors,
      what a socket took followed by what is buffered is the accepted messages in the order
      of their `sendInLoop`, each whole. While a connection is half-closing, its write half is
      closed only with all of them written, and if `shutdownInLoop` left it open, output is
      pending with write interest on. */
  lemma StreamsPreserved(s: System, acts: seq<Action>, c: ConnId)
    requires Initial(s) && ValidRun(s, acts) && c in End(s, acts).conns
    ensures var k := End(s, acts).conns[c];
            && k.wire + k.out == C.Accepted(k.offered)
            && (k.state == C.kDisconnecting && k.shutWr ==> k.wire == C.Accepted(k.offered))
            && (k.state == C.kDisconnecting && k.shutRan && !k.shutWr ==> k.out != [] && k.Writing())
  {
    var k, ops := Projection(s, acts, c);
    C.BytesPreserved(k, ops);
    C.HalfCloseIsGraceful(k, ops);
  }

  /** What one step can do to a connection: never back in rank, never another callback edge
      out of turn, and nothing at all on the wire once it is down. */
  lemma StepMovesForward(s: System, a: Action, c: ConnId)
    requires Inv(s) && Enabled(s, a) && c in s.conns
    ensures c in Do(s, a).conns
    ensures var k, k' := s.conns[c], Do(s, a).conns[c];
            && C.Rank(k.state) <= C.Rank(k'.state) && k.edges <= k'.edges && k.wire <= k'.wire
            && (k.state == C.kDisconnected ==> k'.wire == k.wire && k'.events == NONE_EVENT && k'.index != KAdded)
  {
    StepProjects(s, a, c);
    assert ConnOk(s, c);
    ForwardRun(s.conns[c], OpsOn(s, a, c));
  }

  lemma {:induction false} ForwardRun(k: C.Conn, ops: seq<C.Op>)
    requires C.Coherent(k) && C.ValidRun(k, ops)
    ensures var k' := C.After(k, ops);
            && C.Rank(k.state) <= C.Rank(k'.state) && k.edges <= k'.edges && k.wire <= k'.wire
            && (k.state == C.kDisconnected ==> k'.wire == k.wire && k'.events == NONE_EVENT && k'.index != KAdded)
    decreases |ops|
  {
    if ops != [] {
      var before := ops[..|ops| - 1];
      ForwardRun(k, before);
      C.RunKeeps(k, before);
      C.OpMovesForward(C.After(k, before), ops[|ops| - 1]);
      if k.state == C.kDisconnected {
        C.DownIsSilent(C.After(k, before), ops[|ops| - 1]);
      }
    }
  }

  /** Lifecycle in the whole system, from any reachable state on: ranks only rise, a
      connection that is down writes nothing more and is never polled again, and its user
      has seen one up callback and then one down callback exactly when it is down. */
  lemma {:induction false} Lifecycles(s: System, acts: seq<Action>, c: ConnId)
    requires Inv(s) && ValidRun(s, acts) && c in s.conns
    ensures c in End(s, acts).conns
    ensures var k, k' := s.conns[c], End(s, acts).conns[c];
            && C.Rank(k.state) <= C.Rank(k'.state)
            && (k.state == C.kDisconnected ==> k'.wire == k.wire && k'.index != KAdded)
            && (k'.edges == if k'.state == C.kConnecting then [] else if k'.state == C.kDisconnected then [C.Up, C.Down] else [C.Up])
    decreases |acts|
  {
    RunKeeps(s, acts);
    assert Inv(s) && ConnOk(s, c);
    if acts != [] {
      var before := acts[..|acts| - 1];
      Lifecycles(s, before, c);
      RunKeeps(s, before);
      StepMovesForward(End(s, before), acts[|acts| - 1], c);
      assert ConnOk(End(s, acts), c);
    }
  }

  // Order.

  /** `connectEstablished` precedes everything else the loops do for a connection: a handler
      starts, or a functor other than it runs, only when the connection has left its first
      state; and it is itself run only in that state, hence once. */
  lemma EstablishedFirst(s: System, acts: seq<Action>, l: nat, wr: WriteResult)
    requires Initial(s) && ValidRun(s, acts)
    ensures var e := End(s, acts);
            Enabled(e, RunTask(l, wr)) && !e.loops[l].batch[e.loops[l].pos].UserTask? ==>
              var f := e.loops[l].batch[e.loops[l].pos];
              f.Established? <==> e.conns[f.c].state == C.kConnecting
    ensures var e := End(s, acts);
            Enabled(e, BeginEvent(l)) ==>
              e.loops[l].active[0].c in e.conns && C.Rank(e.conns[e.loops[l].active[0].c].state) in {1, 2}
  {
    var e := End(s, acts);
    ReachableInv(s, acts);
    if Enabled(e, RunTask(l, wr)) && !e.loops[l].batch[e.loops[l].pos].UserTask? {
      TaskComesInTurn(e, l, wr);
    }
    if Enabled(e, BeginEvent(l)) {
      assert LoopOk(e.conns, l, e.loops[l]);
      assert ConnOk(e, e.loops[l].active[0].c);
    }
  }

  lemma TaskComesInTurn(e: System, l: nat, wr: WriteResult)
    requires Inv(e) && Enabled(e, RunTask(l, wr)) && !e.loops[l].batch[e.loops[l].pos].UserTask?
    ensures var f := e.loops[l].batch[e.loops[l].pos];
            f.Established? <==> e.conns[f.c].state == C.kConnecting
  {
    var f := e.loops[l].batch[e.loops[l].pos];
    RestPopped(e.loops[l]);
    assert LoopOk(e.conns, l, e.loops[l]);
    assert TaskOk(e.conns, l, f);
    if !f.Established? && e.conns[f.c].loop == l {
      HeadComesFirst(e, l, f.c);
    }
  }

  // What the server still knows.

  /** No connection is kept after its close: as long as the server's map holds one that is
      down, its removal is in the main loop's queue, or the close callback is still to be
      called on its own loop. */
  lemma ClosedIsForgotten(s: System, acts: seq<Action>, c: ConnId)
    requires Initial(s) && ValidRun(s, acts)
    requires var e := End(s, acts); c in e.connections && c in e.conns && e.conns[c].state == C.kDisconnected
    ensures var e := End(s, acts);
            && e.conns[c].loop < |e.loops| && e.loops[0].pos <= |e.loops[0].batch|
            && (RemoveInLoop(c) in Rest(e.loops[0]) || Closing(e.loops[e.conns[c].loop], c))
  {
    ReachableInv(s, acts);
    assert Account(End(s, acts), c);
  }

  /** A connection the server's map still holds, and that is not down, is registered or not yet
      established, and nothing is about to destroy it. */
  lemma EntriesAreLive(s: System, acts: seq<Action>, c: ConnId)
    requires Initial(s) && ValidRun(s, acts)
    requires var e := End(s, acts); c in e.connections && c in e.conns && e.conns[c].state != C.kDisconnected
    ensures var e := End(s, acts);
            && (e.conns[c].state != C.kConnecting ==> e.conns[c].index == KAdded)
            && e.conns[c].loop < |e.loops|
            && var lp := e.loops[e.conns[c].loop];
               lp.pos <= |lp.batch| && Destroyed(c) !in Rest(lp) && Going(lp, c) == 0
  {
    var e := End(s, acts);
    ReachableInv(s, acts);
    assert Account(e, c) && ConnOk(e, c);
    assert multiset(Rest(e.loops[e.conns[c].loop]))[Destroyed(c)] == 0;
  }

  // Thread confinement.

  /** The thread that performs a step; an append may be any thread's. */
  function ThreadOf(a: Action): Thread {
    match a
    case Accept(_, _, _, _) => OnLoop(0)
    case Poll(l, _) => OnLoop(l)
    case BeginEvent(l) => OnLoop(l)
    case RunOp(l, _, _) => OnLoop(l)
    case EndFrame(l) => OnLoop(l)
    case SwapPending(l) => OnLoop(l)
    case RunTask(l, _) => OnLoop(l)
    case EndBatch(l) => OnLoop(l)
    case Resume(l) => OnLoop(l)
    case UserSend(t, _, _, _) => t
    case UserShutdown(t, _) => t
    case UserQueue(t, _) => t
    case Deliver(_) => Outside
    case Hold(_) => Outside
    case Drop(_) => Outside
    case DestroyServer(_) => OnLoop(0)
  }

  lemma OpsThread(s: System, a: Action, c: ConnId)
    requires Inv(s) && Enabled(s, a) && c in s.conns && OpsOn(s, a, c) != []
    ensures ThreadOf(a) == OnLoop(s.conns[c].loop)
            || (OpsOn(s, a, c) == [C.ShutdownFlag] && s.conns[c].state == C.kConnected)
  {
    match a
    case RunOp(l, _, _) => assert LoopOk(s.conns, l, s.loops[l]);
    case RunTask(l, _) =>
      RestPopped(s.loops[l]);
      assert LoopOk(s.conns, l, s.loops[l]);
      assert TaskOk(s.conns, l, s.loops[l].batch[s.loops[l].pos]);
    case _ =>
  }

  /** At most the queue has grown. */
  ghost predicate OnlyQueued(lp: Loop, lp': Loop) {
    lp' == lp.(pending := lp'.pending) && lp.pending <= lp'.pending
  }

  /** Every other thread can at most queue functors on loop `l`. */
  ghost predicate LoopsLeftAlone(s: System, s': System, t: Thread) {
    && |s'.loops| == |s.loops|
    && forall l :: 0 <= l < |s.loops| && t != OnLoop(l) ==> OnlyQueued(s.loops[l], s'.loops[l])
  }

  /** `connections_` is touched by the main loop's thread alone; a poller, a connection and
      everything of a loop but the tail of its queue by their own loop's thread alone. The one
      exception is the half-close flag, which any thread may set. */
  lemma ThreadConfinement(s: System, a: Action)
    requires Inv(s) && Enabled(s, a)
    ensures Do(s, a).connections != s.connections ==> ThreadOf(a) == OnLoop(0)
    ensures forall c :: c in s.conns && c in Do(s, a).conns && Do(s, a).conns[c] != s.conns[c] ==>
              || ThreadOf(a) == OnLoop(s.conns[c].loop)
              || Do(s, a).conns[c] == s.conns[c].(state := C.kDisconnecting)
    ensures forall l :: 0 <= l < |s.pollers| && l < |Do(s, a).pollers| && Do(s, a).pollers[l] != s.pollers[l] ==>
              ThreadOf(a) == OnLoop(l)
    ensures LoopsLeftAlone(s, Do(s, a), ThreadOf(a))
  {
    MainAlone(s, a);
    forall c | c in s.conns && c in Do(s, a).conns && Do(s, a).conns[c] != s.conns[c]
      ensures || ThreadOf(a) == OnLoop(s.conns[c].loop)
              || Do(s, a).conns[c] == s.conns[c].(state := C.kDisconnecting)
    {
      ConnConfined(s, a, c);
    }
    PollersConfined(s, a);
    LoopsConfined(s, a);
  }

  lemma MainAlone(s: System, a: Action)
    requires Inv(s) && Enabled(s, a)
    ensures Do(s, a).connections != s.connections ==> ThreadOf(a) == OnLoop(0)
  {
    if a.RunOp? {
      HandlerEntries(s, a.l, a.read, a.wr);
    } else if a.RunTask? {
      FunctorEntries(s, a.l, a.wr);
      if s.loops[a.l].batch[s.loops[a.l].pos].RemoveInLoop? {
        RemovalOnMain(s, a.l, a.wr);
      }
    } else if !a.Accept? && !a.DestroyServer? {
      OutsideEntries(s, a);
    }
  }

  lemma RemovalOnMain(s: System, l: nat, wr: WriteResult)
    requires Inv(s) && Enabled(s, RunTask(l, wr)) && s.loops[l].batch[s.loops[l].pos].RemoveInLoop?
    ensures l == 0
  {
    RestPopped(s.loops[l]);
    assert LoopOk(s.conns, l, s.loops[l]);
    assert TaskOk(s.conns, l, s.loops[l].batch[s.loops[l].pos]);
  }

  lemma ConnConfined(s: System, a: Action, c: ConnId)
    requires Inv(s) && Enabled(s, a) && c in s.conns && c in Do(s, a).conns && Do(s, a).conns[c] != s.conns[c]
    ensures || ThreadOf(a) == OnLoop(s.conns[c].loop)
            || Do(s, a).conns[c] == s.conns[c].(state := C.kDisconnecting)
  {
    StepPerforms(s, a, c);
    OpsThread(s, a, c);
  }

  /** Only the poller of loop `l` may have changed. */
  ghost predicate OnlyPoller(s: System, s': System, l: nat) {
    |s'.pollers| == |s.pollers| && forall m :: 0 <= m < |s.pollers| && m != l ==> s'.pollers[m] == s.pollers[m]
  }

  lemma RunOpPollers(s: System, l: nat, read: ReadAnswer, wr: WriteResult)
    requires Inv(s) && Enabled(s, RunOp(l, read, wr))
    ensures OnlyPoller(s, DoRunOp(s, l, read, wr), l)
  {
    assert LoopOk(s.conns, l, s.loops[l]);
  }

  lemma RunTaskPollers(s: System, l: nat, wr: WriteResult)
    requires Inv(s) && Enabled(s, RunTask(l, wr))
    ensures OnlyPoller(s, DoRunTask(s, l, wr), l)
  {
    RestPopped(s.loops[l]);
    assert LoopOk(s.conns, l, s.loops[l]);
    assert TaskOk(s.conns, l, s.loops[l].batch[s.loops[l].pos]);
  }

  lemma UserPollers(s: System, a: Action)
    requires Inv(s) && Enabled(s, a) && (a.UserSend? || a.UserShutdown?)
    ensures Do(s, a).pollers == s.pollers
            || (ThreadOf(a) == OnLoop(s.conns[a.c].loop) && OnlyPoller(s, Do(s, a), s.conns[a.c].loop))
  {}

  lemma MainPollers(s: System, a: Action)
    requires Inv(s) && Enabled(s, a) && (a.Accept? || a.DestroyServer?)
    ensures OnlyPoller(s, Do(s, a), 0)
  {
    PlaceFits(|s.loops| - 1, s.nextId);
  }

  lemma PollersConfined(s: System, a: Action)
    requires Inv(s) && Enabled(s, a)
    ensures forall l :: 0 <= l < |s.pollers| && l < |Do(s, a).pollers| && Do(s, a).pollers[l] != s.pollers[l] ==>
              ThreadOf(a) == OnLoop(l)
  {
    match a
    case RunOp(l, read, wr) => RunOpPollers(s, l, read, wr);
    case RunTask(l, wr) => RunTaskPollers(s, l, wr);
    case Accept(_, _, _, _) => MainPollers(s, a);
    case DestroyServer(_) => MainPollers(s, a);
    case UserSend(_, _, _, _) => UserPollers(s, a);
    case UserShutdown(_, _) => UserPollers(s, a);
    case _ =>
  }

  lemma MoveLoops(s: System, s': System, mv: Move)
    requires MovesBy(s, s', mv)
    ensures LoopsLeftAlone(s, s', OnLoop(mv.l))
  {
    forall l | 0 <= l < |s.loops| && l != mv.l ensures OnlyQueued(s.loops[l], s'.loops[l]) {
      assert Moves(s, s', mv, l);
    }
  }

  lemma HandlerThread(s: System, l: nat, read: ReadAnswer, wr: WriteResult)
    requires Enabled(s, RunOp(l, read, wr))
    ensures HandlerMove(s, l, read, wr).l == l
  {}

  lemma FunctorThread(s: System, l: nat, wr: WriteResult)
    requires Enabled(s, RunTask(l, wr))
    ensures FunctorMove(s, l, wr).l == l
  {}

  lemma SendLoops(s: System, a: Action)
    requires Inv(s) && Enabled(s, a) && a.UserSend?
    ensures LoopsLeftAlone(s, Do(s, a), ThreadOf(a))
  {
    if s.conns[a.c].state == C.kConnected && a.t == OnLoop(s.conns[a.c].loop) {
      SendMoves(s, a);
      MoveLoops(s, Do(s, a), MoveOf(s, a));
    }
  }

  lemma ShutdownLoops(s: System, a: Action)
    requires Inv(s) && Enabled(s, a) && a.UserShutdown?
    ensures LoopsLeftAlone(s, Do(s, a), ThreadOf(a))
  {
    NoPostsAppended(s, a.c, C.ShutdownFlag);
    NoPostsAppended(ConnDo(s, a.c, C.ShutdownFlag), a.c, C.ShutdownRun);
  }

  lemma QueueLoops(s: System, a: Action)
    requires Placed(s) && Enabled(s, a) && (a.UserQueue? || a.Deliver? || a.Hold? || a.Drop?)
    ensures LoopsLeftAlone(s, Do(s, a), ThreadOf(a))
  {}

  lemma PhaseLoops(s: System, a: Action)
    requires Placed(s) && Enabled(s, a) && (a.SwapPending? || a.EndBatch?)
    ensures LoopsLeftAlone(s, Do(s, a), ThreadOf(a))
  {}

  lemma LoopsConfined(s: System, a: Action)
    requires Inv(s) && Enabled(s, a)
    ensures LoopsLeftAlone(s, Do(s, a), ThreadOf(a))
  {
    if a.UserSend? {
      SendLoops(s, a);
    } else if a.UserShutdown? {
      ShutdownLoops(s, a);
    } else if a.UserQueue? || a.Deliver? || a.Hold? || a.Drop? {
      QueueLoops(s, a);
    } else if a.SwapPending? || a.EndBatch? {
      PhaseLoops(s, a);
    } else {
      MoveThread(s, a);
      StepMoves(s, a);
      MoveLoops(s, Do(s, a), MoveOf(s, a));
    }
  }

  lemma MoveThread(s: System, a: Action)
    requires Placed(s) && Enabled(s, a)
    requires !a.UserSend? && !a.UserShutdown? && !a.UserQueue? && !a.Deliver? && !a.Hold? && !a.Drop?
    requires !a.SwapPending? && !a.EndBatch?
    ensures ThreadOf(a) == OnLoop(MoveOf(s, a).l)
  {
    match a
    case RunOp(l, read, wr) => HandlerThread(s, l, read, wr);
    case RunTask(l, wr) => FunctorThread(s, l, wr);
    case _ =>
  }
}
