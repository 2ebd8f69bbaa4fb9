/** A server destroyed with care. */
module ReactorDestruction {
  import opened Registration
  import opened ByteBuffer
  import opened Reactor
  import opened ReactorInvariant
  import opened ReactorMoves
  import opened ReactorSteps
  import opened ReactorRemovals
  import opened ReactorOwnership
  import opened ReactorRuns
  import opened ReactorSafety
  import D = ReactorDelivery
  import C = Connection

  /** A send for `c` is queued, or its sender is about to queue it. */
  ghost predicate SendWaits(s: System, c: ConnId)
    requires Placed(s) && c in s.conns
  {
    || (exists f :: f in Rest(s.loops[s.conns[c].loop]) && D.SendOf(f, c))
    || (exists f :: f in s.inflight && D.SendOf(f, c))
  }

  /** When `connectDestroyed` removes the channel of a half-closing connection, no send for it
      waits. */
  ghost predicate Careful(s: System, a: Action)
    requires Placed(s) && Enabled(s, a)
  {
    a.RunOp? && s.loops[a.l].frame.ops[0] == DoDetach ==>
      var c := s.loops[a.l].frame.c;
      s.conns[c].state == C.kDisconnecting ==> !SendWaits(s, c)
  }

  ghost predicate CarefulRun(s: System, acts: seq<Action>)
    requires ValidRun(s, acts)
    decreases |acts|
  {
    acts == [] ||
    (&& CarefulRun(s, acts[..|acts| - 1])
     && Placed(End(s, acts[..|acts| - 1]))
     && Careful(End(s, acts[..|acts| - 1]), acts[|acts| - 1]))
  }

  /** No send waits for a half-closing connection whose channel is removed. */
  ghost predicate Quiet(s: System) {
    Placed(s) && forall c ::
      c in s.conns && s.conns[c].state == C.kDisconnecting && s.conns[c].index == KNew ==> !SendWaits(s, c)
  }

  /** No loop gets a send for `c` that was not on its way to it. */
  ghost predicate NoNewSend(s: System, s': System, c: ConnId) {
    && |s'.loops| == |s.loops|
    && forall l :: 0 <= l < |s.loops| ==> SendsFrom(s.loops[l], s'.loops[l], s.inflight, c)
  }

  ghost predicate SendsFrom(lp: Loop, lp': Loop, inflight: seq<Task>, c: ConnId) {
    && lp.pos <= |lp.batch| && lp'.pos <= |lp'.batch|
    && forall f :: f in Rest(lp') && D.SendOf(f, c) ==> f in Rest(lp) || f in inflight
  }

  /** The move queues no send for `c` but one that was in flight. */
  ghost predicate SendMove(s: System, mv: Move, c: ConnId) {
    forall f :: f in mv.fs && D.SendOf(f, c) ==> f in s.inflight
  }

  lemma MoveSends(s: System, s': System, mv: Move, c: ConnId)
    requires Placed(s) && MovesBy(s, s', mv) && SendMove(s, mv, c)
    ensures NoNewSend(s, s', c)
  {
    forall l | 0 <= l < |s.loops| ensures SendsFrom(s.loops[l], s'.loops[l], s.inflight, c) {
      assert Moves(s, s', mv, l);
      FitsRest(s.loops[l], s'.loops[l], mv.pop && l == mv.l, if l == mv.m then mv.fs else [], s'.loops[l].frame);
    }
  }

  lemma PostsAreNoSends(k: C.Conn, d: ConnId, op: C.Op, c: ConnId)
    requires C.Possible(k, op)
    ensures forall f :: f in Posts(k, d, op) ==> !D.SendOf(f, c)
  {
    PostsAreNotices(k, d, op);
  }

  lemma HandlerSends(s: System, l: nat, read: ReadAnswer, wr: WriteResult, c: ConnId)
    requires Enabled(s, RunOp(l, read, wr))
    ensures SendMove(s, HandlerMove(s, l, read, wr), c)
  {
    var d, op := s.loops[l].frame.c, s.loops[l].frame.ops[0];
    if op in {DoDetach, Handle(CloseCallback), Handle(WriteCallback)} {
      PostsAreNoSends(s.conns[d], d, HandlerOp(op, wr), c);
    }
  }

  lemma FunctorSends(s: System, l: nat, wr: WriteResult, c: ConnId)
    requires Enabled(s, RunTask(l, wr))
    ensures SendMove(s, FunctorMove(s, l, wr), c)
  {
    match s.loops[l].batch[s.loops[l].pos]
    case Established(d) => PostsAreNoSends(s.conns[d], d, C.Establish, c);
    case Destroyed(d) => PostsAreNoSends(s.conns[d], d, C.Destroy, c);
    case SendTask(d, data) => PostsAreNoSends(s.conns[d], d, C.Send(data, wr), c);
    case ShutdownTask(d) => PostsAreNoSends(s.conns[d], d, C.ShutdownRun, c);
    case _ =>
  }

  lemma OtherSends(s: System, a: Action, c: ConnId)
    requires Placed(s) && Enabled(s, a) && !a.RunOp? && !a.RunTask? && !a.SwapPending? && !a.EndBatch?
    ensures SendMove(s, MoveOf(s, a), c)
  {
    if a.UserSend? {
      PostsAreNoSends(s.conns[a.c], a.c, C.Send(a.data, a.wr), c);
    }
    if a.DestroyServer? {
      PostsAreNoSends(s.conns[a.c], a.c, C.Destroy, c);
    }
  }

  lemma StepSends(s: System, a: Action, c: ConnId)
    requires Inv(s) && Enabled(s, a)
    ensures NoNewSend(s, Do(s, a), c)
  {
    if a.SwapPending? || a.EndBatch? {
      PhaseKeepsRest(s, a);
    } else {
      if a.RunOp? {
        HandlerSends(s, a.l, a.read, a.wr, c);
      } else if a.RunTask? {
        FunctorSends(s, a.l, a.wr, c);
      } else {
        OtherSends(s, a, c);
      }
      StepMoves(s, a);
      MoveSends(s, Do(s, a), MoveOf(s, a), c);
    }
  }

  lemma StepInflight(s: System, a: Action, c: ConnId)
    requires Inv(s) && Enabled(s, a) && c in s.conns && s.conns[c].state != C.kConnected
    ensures forall f :: f in Do(s, a).inflight && D.SendOf(f, c) ==> f in s.inflight
  {
    match a
    case RunOp(l, read, wr) => D.HandlerInflight(s, l, read, wr);
    case RunTask(l, wr) => D.FunctorInflight(s, l, wr);
    case _ =>
  }

  /** No new send waits for a connection that is not up. */
  lemma WaitsNoMore(s: System, a: Action, c: ConnId)
    requires Inv(s) && Enabled(s, a) && c in s.conns && s.conns[c].state != C.kConnected && !SendWaits(s, c)
    requires Placed(Do(s, a))
    ensures c in Do(s, a).conns && !SendWaits(Do(s, a), c)
  {
    var s', l := Do(s, a), s.conns[c].loop;
    PlaceKept(s, a, c);
    StepSends(s, a, c);
    StepInflight(s, a, c);
    assert SendsFrom(s.loops[l], s'.loops[l], s.inflight, c);
  }

  /** Only the removal makes a half-closing connection's channel new. */
  lemma OnlyDetachRenews(s: System, a: Action, c: ConnId)
    requires Inv(s) && Enabled(s, a) && c in s.conns
    requires c in Do(s, a).conns && Do(s, a).conns[c].state == C.kDisconnecting && Do(s, a).conns[c].index == KNew
    ensures s.conns[c].state == C.kDisconnecting
    ensures s.conns[c].index == KNew || OpsOn(s, a, c) == [C.Detach]
  {
    assert ConnOk(s, c);
    StepPerforms(s, a, c);
    if OpsOn(s, a, c) != [] {
      OpsInOrder(s, a, c);
      AtMostTwo(s, a, c);
      RenewedBy(s.conns[c], OpsOn(s, a, c), Do(s, a).conns[c]);
    }
  }

  lemma RenewedBy(k: C.Conn, ops: seq<C.Op>, k': C.Conn)
    requires C.Coherent(k) && Performed(k, ops, k') && ops != [] && C.Enabled(k, ops[0])
    requires |ops| == 1 || ops == [C.ShutdownFlag, C.ShutdownRun]
    requires k'.state == C.kDisconnecting && k'.index == KNew
    ensures k.state == C.kDisconnecting && (k.index == KNew || ops == [C.Detach])
  {
    if C.IsTraffic(ops[0]) {
      C.TrafficIsGentle(k, ops[0]);
    } else {
      assert ops == [ops[0]];
    }
  }

  lemma StepQuiet(s: System, a: Action)
    requires Inv(s) && Quiet(s) && Enabled(s, a) && Careful(s, a)
    ensures Quiet(Do(s, a))
  {
    var s' := Do(s, a);
    StepKeeps(s, a);
    forall c | c in s'.conns && s'.conns[c].state == C.kDisconnecting && s'.conns[c].index == KNew
      ensures !SendWaits(s', c)
    {
      if c in s.conns {
        OnlyDetachRenews(s, a, c);
        DetachIsCareful(s, a, c);
        WaitsNoMore(s, a, c);
      } else {
        OnlyAcceptAdds(s, a, c);
        NewEntry(s, a);
      }
    }
  }

  lemma DetachIsCareful(s: System, a: Action, c: ConnId)
    requires Inv(s) && Quiet(s) && Enabled(s, a) && Careful(s, a) && c in s.conns
    requires s.conns[c].state == C.kDisconnecting && (s.conns[c].index == KNew || OpsOn(s, a, c) == [C.Detach])
    ensures !SendWaits(s, c)
  {}

  lemma QuietIsTimely(s: System, a: Action)
    requires Inv(s) && Quiet(s) && Enabled(s, a)
    ensures Timely(s, a)
  {
    if a.RunTask? {
      RestPopped(s.loops[a.l]);
      var f := s.loops[a.l].batch[s.loops[a.l].pos];
      assert LoopOk(s.conns, a.l, s.loops[a.l]);
      assert f in Rest(s.loops[a.l]) && TaskOk(s.conns, a.l, f);
      if f.SendTask? {
        assert D.SendOf(f, f.c);
      }
    }
  }

  lemma {:induction false} CarefulIsQuiet(s: System, acts: seq<Action>)
    requires Initial(s) && ValidRun(s, acts) && CarefulRun(s, acts)
    ensures Quiet(End(s, acts))
    decreases |acts|
  {
    ReachableInv(s, acts);
    if acts != [] {
      var before := acts[..|acts| - 1];
      ReachableInv(s, before);
      CarefulIsQuiet(s, before);
      StepQuiet(End(s, before), acts[|acts| - 1]);
    }
  }

  /** A server may be destroyed at any time, if no send for a half-closing connection waits
      when its channel is removed: then too all theorems about timely runs hold. */
  lemma {:induction false} CarefulIsTimely(s: System, acts: seq<Action>)
    requires Initial(s) && ValidRun(s, acts) && CarefulRun(s, acts)
    ensures TimelyRun(s, acts)
    decreases |acts|
  {
    if acts != [] {
      var before := acts[..|acts| - 1];
      CarefulIsTimely(s, before);
      ReachableInv(s, before);
      CarefulIsQuiet(s, before);
      QuietIsTimely(End(s, before), acts[|acts| - 1]);
    }
  }

  /** Ownership on a server destroyed with care. */
  lemma CarefulOwnership(s: System, acts: seq<Action>, l: nat, fd: int)
    requires Initial(s) && ValidRun(s, acts) && CarefulRun(s, acts)
    requires l < |End(s, acts).pollers| && fd in End(s, acts).pollers[l].channels
    ensures EntryOwned(End(s, acts), l, fd)
  {
    CarefulIsTimely(s, acts);
    Ownership(s, acts, l, fd);
  }
}
