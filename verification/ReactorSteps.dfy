/** One step of the machine as one connection sees it: which operations of `Connection` it
    performs, each in its turn. */
module ReactorSteps {
  import opened Registration
  import opened ByteBuffer
  import opened Reactor
  import opened ReactorInvariant
  import C = Connection

  /** The operations one step performs on a connection. */
  ghost function OpsOn(s: System, a: Action, c: ConnId): seq<C.Op>
    requires Enabled(s, a)
  {
    match a
    case RunOp(l, _, wr) =>
      if s.loops[l].frame.c != c then []
      else if s.loops[l].frame.ops[0] == Handle(CloseCallback) then [C.Close]
      else if s.loops[l].frame.ops[0] == Handle(WriteCallback) then [C.WriteReady(wr)]
      else if s.loops[l].frame.ops[0] == DoDetach then [C.Detach]
      else []
    case RunTask(l, wr) =>
      var f := s.loops[l].batch[s.loops[l].pos];
      if !About(f, c) then []
      else
        (match f
         case Established(_) => [C.Establish]
         case Destroyed(_) => [C.Destroy]
         case SendTask(_, data) => [C.Send(data, wr)]
         case ShutdownTask(_) => [C.ShutdownRun]
         case _ => [])
    case UserSend(t, d, data, wr) =>
      if d == c && s.conns[c].state == C.kConnected && t == OnLoop(s.conns[c].loop) then [C.Send(data, wr)]
      else []
    case UserShutdown(t, d) =>
      if d == c && s.conns[c].state == C.kConnected then
        if t == OnLoop(s.conns[c].loop) then [C.ShutdownFlag, C.ShutdownRun] else [C.ShutdownFlag]
      else []
    case DestroyServer(d) => if d == c && s.conns[c].loop == 0 then [C.Destroy] else []
    case _ => []
  }

  lemma OneOp(k: C.Conn, op: C.Op)
    requires C.Enabled(k, op)
    ensures C.ValidRun(k, [op]) && C.After(k, [op]) == C.Apply(k, op).conn
    ensures C.ValidRun(k, []) && C.After(k, []) == k
  {
    assert [op][..0] == [];
  }

  lemma TwoOps(k: C.Conn, op: C.Op, op': C.Op)
    requires C.Enabled(k, op) && C.Enabled(C.Apply(k, op).conn, op')
    ensures C.ValidRun(k, [op, op']) && C.After(k, [op, op']) == C.Apply(C.Apply(k, op).conn, op').conn
  {
    OneOp(k, op);
    assert [op, op'][..1] == [op];
  }

  lemma HandlerInOrder(s: System, l: nat, read: ReadAnswer, wr: WriteResult, c: ConnId)
    requires Inv(s) && Enabled(s, RunOp(l, read, wr)) && c in s.conns && OpsOn(s, RunOp(l, read, wr), c) != []
    ensures Alive(s, c) && C.Enabled(s.conns[c], OpsOn(s, RunOp(l, read, wr), c)[0])
  {
    var ops := s.loops[l].frame.ops;
    assert LoopOk(s.conns, l, s.loops[l]);
    assert HoldsOn(s.loops[l], c);
    assert ops[0] in ops && (Closer(ops[0]) ==> s.conns[c].index == KAdded);
  }

  lemma FunctorInOrder(s: System, l: nat, wr: WriteResult, c: ConnId)
    requires Inv(s) && Enabled(s, RunTask(l, wr)) && c in s.conns && OpsOn(s, RunTask(l, wr), c) != []
    ensures Alive(s, c) && C.Enabled(s.conns[c], OpsOn(s, RunTask(l, wr), c)[0])
  {
    var f := s.loops[l].batch[s.loops[l].pos];
    RestPopped(s.loops[l]);
    assert LoopOk(s.conns, l, s.loops[l]);
    assert TaskOk(s.conns, l, f);
    if f.Established? || f.Destroyed? {
      assert Owns(f, c);
      assert HoldsOn(s.loops[l], c);
    }
    if !f.Established? {
      HeadComesFirst(s, l, c);
    }
  }

  /** The first operation of a step comes in its turn, on a connection that is owned. */
  lemma OpsInOrder(s: System, a: Action, c: ConnId)
    requires Inv(s) && Enabled(s, a) && c in s.conns && OpsOn(s, a, c) != []
    ensures Alive(s, c) && C.Enabled(s.conns[c], OpsOn(s, a, c)[0])
  {
    assert ConnOk(s, c);
    match a
    case RunOp(l, read, wr) => HandlerInOrder(s, l, read, wr, c);
    case RunTask(l, wr) => FunctorInOrder(s, l, wr, c);
    case UserSend(_, _, _, _) =>
    case UserShutdown(_, _) =>
    case DestroyServer(_) =>
  }

  /** At most two operations, one after the other. */
  ghost predicate Performed(k: C.Conn, ops: seq<C.Op>, k': C.Conn) {
    if ops == [] then k' == k
    else
      && C.Possible(k, ops[0])
      && var k1 := C.Apply(k, ops[0]).conn;
         if |ops| == 1 then k' == k1
         else |ops| == 2 && C.Possible(k1, ops[1]) && k' == C.Apply(k1, ops[1]).conn
  }

  /** `s'` is `s` with `op` performed on `c`, as far as connections and pollers go. */
  ghost predicate OneDone(s: System, s': System, c: ConnId, op: C.Op) {
    && Located(s, c) && C.Possible(s.conns[c], op)
    && var k, e, l := s.conns[c], C.Apply(s.conns[c], op), s.conns[c].loop;
       && s'.conns == s.conns[c := e.conn]
       && s'.pollers == s.pollers[l := C.PollerAfter(s.pollers[l], c, k, e)]
  }

  lemma CloseDone(s: System, l: nat, read: ReadAnswer, wr: WriteResult)
    requires Enabled(s, RunOp(l, read, wr)) && s.loops[l].frame.ops[0] == Handle(CloseCallback)
    ensures OneDone(s, DoRunOp(s, l, read, wr), s.loops[l].frame.c, C.Close)
  {}

  lemma WriteDone(s: System, l: nat, read: ReadAnswer, wr: WriteResult)
    requires Enabled(s, RunOp(l, read, wr)) && s.loops[l].frame.ops[0] == Handle(WriteCallback)
    ensures OneDone(s, DoRunOp(s, l, read, wr), s.loops[l].frame.c, C.WriteReady(wr))
  {}

  lemma DetachDone(s: System, l: nat, read: ReadAnswer, wr: WriteResult)
    requires Enabled(s, RunOp(l, read, wr)) && s.loops[l].frame.ops[0] == DoDetach
    ensures OneDone(s, DoRunOp(s, l, read, wr), s.loops[l].frame.c, C.Detach)
  {}

  lemma NoneDone(s: System, l: nat, read: ReadAnswer, wr: WriteResult)
    requires Enabled(s, RunOp(l, read, wr))
    requires s.loops[l].frame.ops[0] !in {Handle(CloseCallback), Handle(WriteCallback), DoDetach}
    ensures DoRunOp(s, l, read, wr).conns == s.conns && DoRunOp(s, l, read, wr).pollers == s.pollers
  {}

  lemma RunOpPerforms(s: System, l: nat, read: ReadAnswer, wr: WriteResult, c: ConnId)
    requires Enabled(s, RunOp(l, read, wr)) && c in s.conns
    ensures c in DoRunOp(s, l, read, wr).conns
    ensures Performed(s.conns[c], OpsOn(s, RunOp(l, read, wr), c), DoRunOp(s, l, read, wr).conns[c])
  {
    if s.loops[l].frame.ops[0] == Handle(CloseCallback) {
      CloseDone(s, l, read, wr);
    } else if s.loops[l].frame.ops[0] == Handle(WriteCallback) {
      WriteDone(s, l, read, wr);
    } else if s.loops[l].frame.ops[0] == DoDetach {
      DetachDone(s, l, read, wr);
    } else {
      NoneDone(s, l, read, wr);
    }
  }

  lemma RunTaskPerforms(s: System, l: nat, wr: WriteResult, c: ConnId)
    requires Enabled(s, RunTask(l, wr)) && c in s.conns
    ensures c in DoRunTask(s, l, wr).conns
    ensures Performed(s.conns[c], OpsOn(s, RunTask(l, wr), c), DoRunTask(s, l, wr).conns[c])
  {}

  lemma UserSendPerforms(s: System, a: Action, c: ConnId)
    requires Inv(s) && Enabled(s, a) && c in s.conns && a.UserSend?
    ensures c in Do(s, a).conns && Performed(s.conns[c], OpsOn(s, a, c), Do(s, a).conns[c])
  {}

  lemma UserShutdownPerforms(s: System, a: Action, c: ConnId)
    requires Inv(s) && Enabled(s, a) && c in s.conns && a.UserShutdown?
    ensures c in Do(s, a).conns && Performed(s.conns[c], OpsOn(s, a, c), Do(s, a).conns[c])
  {}

  lemma OtherPerforms(s: System, a: Action, c: ConnId)
    requires Inv(s) && Enabled(s, a) && c in s.conns
    requires !a.RunOp? && !a.RunTask? && !a.UserSend? && !a.UserShutdown?
    ensures c in Do(s, a).conns && Performed(s.conns[c], OpsOn(s, a, c), Do(s, a).conns[c])
  {
    assert c < s.nextId;
  }

  lemma StepPerforms(s: System, a: Action, c: ConnId)
    requires Inv(s) && Enabled(s, a) && c in s.conns
    ensures c in Do(s, a).conns && Performed(s.conns[c], OpsOn(s, a, c), Do(s, a).conns[c])
  {
    match a
    case RunOp(l, read, wr) => RunOpPerforms(s, l, read, wr, c);
    case RunTask(l, wr) => RunTaskPerforms(s, l, wr, c);
    case UserSend(_, _, _, _) => UserSendPerforms(s, a, c);
    case UserShutdown(_, _) => UserShutdownPerforms(s, a, c);
    case _ => OtherPerforms(s, a, c);
  }

  /** One step changes a connection by exactly the operations listed, each in its turn. */
  lemma StepProjects(s: System, a: Action, c: ConnId)
    requires Inv(s) && Enabled(s, a) && c in s.conns
    ensures C.ValidRun(s.conns[c], OpsOn(s, a, c))
    ensures c in Do(s, a).conns && Do(s, a).conns[c] == C.After(s.conns[c], OpsOn(s, a, c))
  {
    StepPerforms(s, a, c);
    if OpsOn(s, a, c) != [] {
      OpsInOrder(s, a, c);
      AtMostTwo(s, a, c);
      PerformedRuns(s.conns[c], OpsOn(s, a, c), Do(s, a).conns[c]);
    }
  }

  lemma PerformedRuns(k: C.Conn, ops: seq<C.Op>, k': C.Conn)
    requires Performed(k, ops, k') && ops != [] && C.Enabled(k, ops[0])
    requires |ops| == 1 || ops == [C.ShutdownFlag, C.ShutdownRun]
    ensures C.ValidRun(k, ops) && k' == C.After(k, ops)
  {
    OneOp(k, ops[0]);
    if |ops| == 1 {
      assert ops == [ops[0]];
    } else {
      TwoOps(k, ops[0], ops[1]);
    }
  }

  lemma AtMostTwo(s: System, a: Action, c: ConnId)
    requires Enabled(s, a) && c in s.conns && OpsOn(s, a, c) != []
    ensures |OpsOn(s, a, c)| == 1 || OpsOn(s, a, c) == [C.ShutdownFlag, C.ShutdownRun]
  {}

  /** Any number of traffic operations is gentle. */
  lemma TrafficOps(s: System, a: Action, c: ConnId)
    requires Inv(s) && Enabled(s, a) && c in s.conns
    requires forall op :: op in OpsOn(s, a, c) ==> C.IsTraffic(op)
    ensures c in Do(s, a).conns && C.Gentle(s.conns[c], Do(s, a).conns[c])
  {
    StepPerforms(s, a, c);
    if OpsOn(s, a, c) != [] {
      assert ConnOk(s, c);
      OpsInOrder(s, a, c);
      AtMostTwo(s, a, c);
      PerformedGentle(s.conns[c], OpsOn(s, a, c), Do(s, a).conns[c]);
    }
  }

  lemma PerformedGentle(k: C.Conn, ops: seq<C.Op>, k': C.Conn)
    requires C.Coherent(k) && Performed(k, ops, k') && ops != []
    requires |ops| == 1 || ops == [C.ShutdownFlag, C.ShutdownRun]
    requires C.Enabled(k, ops[0]) && C.IsTraffic(ops[0])
    ensures C.Gentle(k, k')
  {
    C.TrafficIsGentle(k, ops[0]);
  }

  /** Descriptor and loop of a connection never change. */
  lemma PlaceKept(s: System, a: Action, c: ConnId)
    requires Inv(s) && Enabled(s, a) && c in s.conns
    ensures c in Do(s, a).conns
    ensures Do(s, a).conns[c].fd == s.conns[c].fd && Do(s, a).conns[c].loop == s.conns[c].loop
    ensures C.Rank(s.conns[c].state) <= C.Rank(Do(s, a).conns[c].state)
  {
    StepPerforms(s, a, c);
    if OpsOn(s, a, c) != [] {
      assert ConnOk(s, c);
      OpsInOrder(s, a, c);
      AtMostTwo(s, a, c);
      PerformedInPlace(s.conns[c], OpsOn(s, a, c), Do(s, a).conns[c]);
    }
  }

  lemma PerformedInPlace(k: C.Conn, ops: seq<C.Op>, k': C.Conn)
    requires C.Coherent(k) && Performed(k, ops, k') && ops != [] && C.Enabled(k, ops[0])
    requires |ops| == 1 || ops == [C.ShutdownFlag, C.ShutdownRun]
    ensures k'.fd == k.fd && k'.loop == k.loop && C.Rank(k.state) <= C.Rank(k'.state)
  {
    C.OpMovesForward(k, ops[0]);
  }

  lemma OnlyAcceptAdds(s: System, a: Action, c: ConnId)
    requires Inv(s) && Enabled(s, a) && c !in s.conns && c in Do(s, a).conns
    ensures a.Accept? && c == s.nextId
  {
    match a
    case RunOp(l, read, wr) => RunOpKeepsKeys(s, l, read, wr);
    case RunTask(l, wr) => RunTaskKeepsKeys(s, l, wr);
    case _ =>
  }

  lemma RunOpKeepsKeys(s: System, l: nat, read: ReadAnswer, wr: WriteResult)
    requires Inv(s) && Enabled(s, RunOp(l, read, wr))
    ensures DoRunOp(s, l, read, wr).conns.Keys == s.conns.Keys
  {
    var op := s.loops[l].frame.ops[0];
    if op == Handle(CloseCallback) {
      CloseDone(s, l, read, wr);
    } else if op == Handle(WriteCallback) {
      WriteDone(s, l, read, wr);
    } else if op == DoDetach {
      DetachDone(s, l, read, wr);
    } else {
      NoneDone(s, l, read, wr);
    }
  }

  lemma RunTaskKeepsKeys(s: System, l: nat, wr: WriteResult)
    requires Inv(s) && Enabled(s, RunTask(l, wr))
    ensures DoRunTask(s, l, wr).conns.Keys == s.conns.Keys
  {}
}
