/** What user code asks of a connection reaches it: every `send()` and `shutdown()` taken while
    the connection was up is performed or still on its way, from whatever thread it came; and
    every functor once queued is run once, in order. */
module ReactorDelivery {
  import opened Registration
  import opened ByteBuffer
  import opened Reactor
  import opened ReactorInvariant
  import opened ReactorMoves
  import opened ReactorSteps
  import opened ReactorRemovals
  import opened ReactorRuns
  import C = Connection

  // The queues of functors.

  /** The functors a run executes on loop `l`. */
  ghost function Ran(s: System, acts: seq<Action>, l: nat): seq<Task>
    requires ValidRun(s, acts)
    decreases |acts|
  {
    if acts == [] then []
    else
      var a, e := acts[|acts| - 1], End(s, acts[..|acts| - 1]);
      Ran(s, acts[..|acts| - 1], l) + if a.RunTask? && a.l == l then [e.loops[l].batch[e.loops[l].pos]] else []
  }

  /** What a step executes on loop `l`. */
  ghost function RanNow(s: System, a: Action, l: nat): seq<Task>
    requires Enabled(s, a)
  {
    if a.RunTask? && a.l == l then [s.loops[l].batch[s.loops[l].pos]] else []
  }

  /** What a step queues on loop `l`. */
  ghost function Added(s: System, a: Action, l: nat): seq<Task>
    requires Placed(s) && Enabled(s, a)
  {
    if a.SwapPending? || a.EndBatch? then [] else if l == MoveOf(s, a).m then MoveOf(s, a).fs else []
  }

  /** One step runs the head of its queue, and otherwise only appends to queues. */
  lemma StepQueue(s: System, a: Action, l: nat)
    requires Inv(s) && Enabled(s, a) && l < |s.loops|
    ensures l < |Do(s, a).loops| && Do(s, a).loops[l].pos <= |Do(s, a).loops[l].batch|
    ensures Rest(s.loops[l]) + Added(s, a, l) == RanNow(s, a, l) + Rest(Do(s, a).loops[l])
  {
    if a.SwapPending? || a.EndBatch? {
      PhaseKeepsRest(s, a);
    } else {
      StepMoves(s, a);
      PopIsRun(s, a);
      MoveQueue(s, Do(s, a), MoveOf(s, a), l);
    }
  }

  lemma MoveQueue(s: System, s': System, mv: Move, l: nat)
    requires Placed(s) && MovesBy(s, s', mv) && l < |s.loops|
    ensures s'.loops[l].pos <= |s'.loops[l].batch|
    ensures Rest(s.loops[l]) + (if l == mv.m then mv.fs else [])
            == (if mv.pop && l == mv.l then [s.loops[l].batch[s.loops[l].pos]] else []) + Rest(s'.loops[l])
  {
    assert Moves(s, s', mv, l);
    FitsRest(s.loops[l], s'.loops[l], mv.pop && l == mv.l, if l == mv.m then mv.fs else [], s'.loops[l].frame);
  }

  lemma PopIsRun(s: System, a: Action)
    requires Placed(s) && Enabled(s, a) && !a.SwapPending? && !a.EndBatch?
    ensures MoveOf(s, a).pop <==> a.RunTask?
    ensures a.RunTask? ==> MoveOf(s, a).l == a.l
  {
    if a.RunOp? {
      HandlerDoesNotPop(s, a.l, a.read, a.wr);
    } else if a.RunTask? {
      FunctorPops(s, a.l, a.wr);
    }
  }

  lemma HandlerDoesNotPop(s: System, l: nat, read: ReadAnswer, wr: WriteResult)
    requires Enabled(s, RunOp(l, read, wr))
    ensures !HandlerMove(s, l, read, wr).pop
  {}

  lemma FunctorPops(s: System, l: nat, wr: WriteResult)
    requires Enabled(s, RunTask(l, wr))
    ensures FunctorMove(s, l, wr).pop && FunctorMove(s, l, wr).l == l
  {}

  /** Everything queued on loop `l` so far: what it ran, then what it has still to run. */
  ghost function EverQueued(s: System, acts: seq<Action>, l: nat): seq<Task>
    requires ValidRun(s, acts)
  {
    Ran(s, acts, l) + Unrun(End(s, acts), l)
  }

  ghost function Unrun(e: System, l: nat): seq<Task> {
    if l < |e.loops| && e.loops[l].pos <= |e.loops[l].batch| then Rest(e.loops[l]) else []
  }

  lemma {:induction false} LoopsStay(s: System, acts: seq<Action>)
    requires Initial(s) && ValidRun(s, acts)
    ensures |End(s, acts).loops| == |s.loops|
    decreases |acts|
  {
    if acts != [] {
      LoopsStay(s, acts[..|acts| - 1]);
      ReachableInv(s, acts[..|acts| - 1]);
      StepSameLoops(End(s, acts[..|acts| - 1]), acts[|acts| - 1]);
    }
  }

  /** Functors over whole runs: what was queued stays, in its place, whatever happens; so each
      functor is run at most once, in the order of queueing, and none before its turn. */
  lemma {:induction false} NothingLost(s: System, acts: seq<Action>, k: nat, l: nat)
    requires Initial(s) && ValidRun(s, acts) && k <= |acts| && l < |s.loops|
    ensures ValidRun(s, acts[..k]) && EverQueued(s, acts[..k], l) <= EverQueued(s, acts, l)
    decreases |acts|
  {
    if k < |acts| {
      var before, a := acts[..|acts| - 1], acts[|acts| - 1];
      assert before[..k] == acts[..k];
      NothingLost(s, before, k, l);
      QueuedStep(s, acts, l);
    } else {
      assert acts[..k] == acts;
    }
  }

  lemma QueuedStep(s: System, acts: seq<Action>, l: nat)
    requires Initial(s) && ValidRun(s, acts) && acts != [] && l < |s.loops|
    ensures EverQueued(s, acts[..|acts| - 1], l) <= EverQueued(s, acts, l)
  {
    var before, a := acts[..|acts| - 1], acts[|acts| - 1];
    ReachableInv(s, before);
    LoopsStay(s, before);
    StepQueue(End(s, before), a, l);
    var e := End(s, before);
    Extends(Ran(s, before, l), Unrun(e, l), Added(e, a, l), RanNow(e, a, l), Unrun(Do(e, a), l));
  }

  lemma Extends(r: seq<Task>, q: seq<Task>, added: seq<Task>, ran: seq<Task>, q': seq<Task>)
    requires q + added == ran + q'
    ensures r + q <= r + ran + q' && r + ran + q' == r + q + added
  {
    assert r + ran + q' == r + (q + added) == r + q + added;
  }

  // Sends.

  predicate SendOf(f: Task, c: ConnId) {
    f.SendTask? && f.c == c
  }

  /** The messages for `c` in a queue. */
  function SendsIn(q: seq<Task>, c: ConnId): seq<seq<Byte>> {
    if q == [] then []
    else SendsIn(q[..|q| - 1], c) + if SendOf(q[|q| - 1], c) then [q[|q| - 1].data] else []
  }

  lemma {:induction false} SendsAdd(p: seq<Task>, q: seq<Task>, c: ConnId)
    ensures SendsIn(p + q, c) == SendsIn(p, c) + SendsIn(q, c)
    decreases |q|
  {
    if q == [] {
      assert p + q == p;
    } else {
      SendsAdd(p, q[..|q| - 1], c);
      assert (p + q)[..|p + q| - 1] == p + q[..|q| - 1];
    }
  }

  lemma {:induction false} NoSends(q: seq<Task>, c: ConnId)
    requires forall f :: f in q ==> !SendOf(f, c)
    ensures SendsIn(q, c) == []
    decreases |q|
  {
    if q != [] {
      assert q[|q| - 1] in q;
      NoSends(q[..|q| - 1], c);
    }
  }

  lemma OneSend(f: Task, c: ConnId)
    ensures SendsIn([f], c) == if SendOf(f, c) then [f.data] else []
  {
    assert [f][..0] == [];
  }

  /** The messages for `c` on their way to it. */
  ghost function Waiting(s: System, c: ConnId): multiset<seq<Byte>>
    requires Placed(s) && c in s.conns
  {
    multiset(SendsIn(Rest(s.loops[s.conns[c].loop]), c)) + multiset(SendsIn(s.inflight, c))
  }

  /** The messages that have reached `sendInLoop`, accepted or refused. */
  ghost function Reached(s: System, c: ConnId): multiset<seq<Byte>>
    requires c in s.conns
  {
    multiset(C.Contents(s.conns[c].offered))
  }

  /** What a call of `send()` gives the connection: its message, if the connection is up. */
  ghost function Given(s: System, a: Action, c: ConnId): multiset<seq<Byte>>
    requires c in s.conns
  {
    if a.UserSend? && a.c == c && s.conns[c].state == C.kConnected then multiset{a.data} else multiset{}
  }

  /** The messages of all calls of `send()` for `c`, from any thread, while it was up. */
  ghost function Calls(s: System, acts: seq<Action>, c: ConnId): multiset<seq<Byte>>
    requires ValidRun(s, acts)
    decreases |acts|
  {
    if acts == [] then multiset{}
    else
      var e := End(s, acts[..|acts| - 1]);
      Calls(s, acts[..|acts| - 1], c) + if c in e.conns then Given(e, acts[|acts| - 1], c) else multiset{}
  }

  /** What an operation adds to the messages that reached the connection. */
  lemma StepReaches(s: System, a: Action, c: ConnId)
    requires Inv(s) && Enabled(s, a) && c in s.conns
    ensures c in Do(s, a).conns && Reached(Do(s, a), c) == Reached(s, c) + multiset(C.Sent(OpsOn(s, a, c)))
  {
    StepProjects(s, a, c);
    C.OfferedAreSent(s.conns[c], OpsOn(s, a, c));
  }

  lemma SentByOne(op: C.Op)
    ensures C.Sent([op]) == if op.Send? then [op.data] else []
  {
    assert [op][..0] == [];
  }

  /** The messages in the queue of the connection's loop after a step. */
  lemma StepSends(s: System, a: Action, c: ConnId)
    requires Inv(s) && Enabled(s, a) && c in s.conns
    requires Placed(Do(s, a)) && |Do(s, a).loops| == |s.loops|
    ensures var l := s.conns[c].loop;
            SendsIn(Rest(s.loops[l]), c) + SendsIn(Added(s, a, l), c)
            == SendsIn(RanNow(s, a, l), c) + SendsIn(Rest(Do(s, a).loops[l]), c)
  {
    var l := s.conns[c].loop;
    StepQueue(s, a, l);
    SendsAdd(Rest(s.loops[l]), Added(s, a, l), c);
    SendsAdd(RanNow(s, a, l), Rest(Do(s, a).loops[l]), c);
  }

  // What each step queues, runs, performs and leaves in flight, as far as sends for one
  // connection go.

  datatype Traffic = Traffic(added: seq<seq<Byte>>, ran: seq<seq<Byte>>, sent: seq<seq<Byte>>,
                             was: seq<seq<Byte>>, left: seq<seq<Byte>>)

  ghost function TrafficOf(s: System, a: Action, c: ConnId): Traffic
    requires Placed(s) && Enabled(s, a) && c in s.conns
  {
    var l := s.conns[c].loop;
    Traffic(SendsIn(Added(s, a, l), c), SendsIn(RanNow(s, a, l), c), C.Sent(OpsOn(s, a, c)),
            SendsIn(s.inflight, c), SendsIn(Do(s, a).inflight, c))
  }

  /** What is performed, queued and still in flight is what was run, in flight, or given. */
  ghost predicate Even(t: Traffic, given: multiset<seq<Byte>>) {
    multiset(t.sent) + multiset(t.added) + multiset(t.left) == multiset(t.ran) + multiset(t.was) + given
  }

  lemma Untouched(t: Traffic)
    requires t.added == [] && t.ran == t.sent && t.was == t.left
    ensures Even(t, multiset{})
  {}

  lemma PostsHaveNoSends(k: C.Conn, d: ConnId, op: C.Op, c: ConnId)
    requires C.Possible(k, op)
    ensures SendsIn(Posts(k, d, op), c) == []
  {
    PostsAreNotices(k, d, op);
    NoSends(Posts(k, d, op), c);
  }

  lemma HandlerQueues(s: System, l: nat, read: ReadAnswer, wr: WriteResult, c: ConnId)
    requires Enabled(s, RunOp(l, read, wr))
    ensures SendsIn(HandlerMove(s, l, read, wr).fs, c) == []
  {
    var d, op := s.loops[l].frame.c, s.loops[l].frame.ops[0];
    if op in {DoDetach, Handle(CloseCallback), Handle(WriteCallback)} {
      PostsHaveNoSends(s.conns[d], d, HandlerOp(op, wr), c);
    } else {
      NoSends(HandlerMove(s, l, read, wr).fs, c);
    }
  }

  lemma HandlerSent(s: System, l: nat, read: ReadAnswer, wr: WriteResult, c: ConnId)
    requires Enabled(s, RunOp(l, read, wr)) && c in s.conns
    ensures C.Sent(OpsOn(s, RunOp(l, read, wr), c)) == []
  {
    SentByOne(C.Close);
    SentByOne(C.Detach);
    SentByOne(C.WriteReady(wr));
  }

  lemma HandlerInflight(s: System, l: nat, read: ReadAnswer, wr: WriteResult)
    requires Enabled(s, RunOp(l, read, wr))
    ensures DoRunOp(s, l, read, wr).inflight == s.inflight
  {}

  lemma HandlerTraffic(s: System, l: nat, read: ReadAnswer, wr: WriteResult, c: ConnId)
    requires Inv(s) && Enabled(s, RunOp(l, read, wr)) && c in s.conns
    ensures Even(TrafficOf(s, RunOp(l, read, wr), c), multiset{})
  {
    HandlerQueues(s, l, read, wr, c);
    HandlerSent(s, l, read, wr, c);
    HandlerInflight(s, l, read, wr);
    Untouched(TrafficOf(s, RunOp(l, read, wr), c));
  }

  lemma FunctorQueues(s: System, l: nat, wr: WriteResult, c: ConnId)
    requires Enabled(s, RunTask(l, wr))
    ensures SendsIn(FunctorMove(s, l, wr).fs, c) == []
  {
    match s.loops[l].batch[s.loops[l].pos]
    case Established(d) => PostsHaveNoSends(s.conns[d], d, C.Establish, c);
    case Destroyed(d) => PostsHaveNoSends(s.conns[d], d, C.Destroy, c);
    case SendTask(d, data) => PostsHaveNoSends(s.conns[d], d, C.Send(data, wr), c);
    case ShutdownTask(d) => PostsHaveNoSends(s.conns[d], d, C.ShutdownRun, c);
    case RemoveInLoop(d) => NoSends([Destroyed(d)], c);
    case _ =>
  }

  lemma FunctorSent(s: System, l: nat, wr: WriteResult, c: ConnId)
    requires Enabled(s, RunTask(l, wr)) && c in s.conns
    ensures var f := s.loops[l].batch[s.loops[l].pos];
            C.Sent(OpsOn(s, RunTask(l, wr), c)) == if SendOf(f, c) then [f.data] else []
  {
    var ops := OpsOn(s, RunTask(l, wr), c);
    if ops != [] {
      SentByOne(ops[0]);
      assert ops == [ops[0]];
    }
  }

  lemma FunctorInflight(s: System, l: nat, wr: WriteResult)
    requires Enabled(s, RunTask(l, wr))
    ensures DoRunTask(s, l, wr).inflight == s.inflight
  {}

  lemma FunctorTraffic(s: System, l: nat, wr: WriteResult, c: ConnId)
    requires Inv(s) && Enabled(s, RunTask(l, wr)) && c in s.conns
    ensures Even(TrafficOf(s, RunTask(l, wr), c), multiset{})
  {
    var f := s.loops[l].batch[s.loops[l].pos];
    FunctorQueues(s, l, wr, c);
    OneSend(f, c);
    RestPopped(s.loops[l]);
    assert LoopOk(s.conns, l, s.loops[l]) && TaskOk(s.conns, l, f);
    FunctorSent(s, l, wr, c);
    FunctorInflight(s, l, wr);
    Untouched(TrafficOf(s, RunTask(l, wr), c));
  }

  /** A send on the connection's own thread. */
  lemma DirectSendTraffic(s: System, a: Action, c: ConnId)
    requires Placed(s) && Enabled(s, a) && a.UserSend? && c in s.conns
    requires s.conns[a.c].state == C.kConnected && a.t == OnLoop(s.conns[a.c].loop)
    ensures var t := TrafficOf(s, a, c);
            t.added == [] && t.ran == [] && t.left == t.was && t.sent == if c == a.c then [a.data] else []
  {
    PostsHaveNoSends(s.conns[a.c], a.c, C.Send(a.data, a.wr), c);
    SentByOne(C.Send(a.data, a.wr));
  }

  /** A send from another thread, or one that finds the connection not up. */
  lemma QueuedSendTraffic(s: System, a: Action, c: ConnId)
    requires Placed(s) && Enabled(s, a) && a.UserSend? && c in s.conns
    requires s.conns[a.c].state != C.kConnected || a.t != OnLoop(s.conns[a.c].loop)
    ensures var t := TrafficOf(s, a, c);
            t.added == [] && t.ran == [] && t.sent == []
            && t.left == t.was + if c == a.c && s.conns[c].state == C.kConnected then [a.data] else []
  {
    SendsAdd(s.inflight, [SendTask(a.c, a.data)], c);
    OneSend(SendTask(a.c, a.data), c);
  }

  lemma SentNow(t: Traffic, x: seq<seq<Byte>>)
    requires t.added == [] && t.ran == [] && t.left == t.was && t.sent == x
    ensures Even(t, multiset(x))
  {}

  lemma SentLater(t: Traffic, x: seq<seq<Byte>>)
    requires t.added == [] && t.ran == [] && t.left == t.was + x && t.sent == []
    ensures Even(t, multiset(x))
  {}

  lemma GivenIs(s: System, a: Action, c: ConnId)
    requires a.UserSend? && c in s.conns
    ensures Given(s, a, c) == multiset(if c == a.c && s.conns[c].state == C.kConnected then [a.data] else [])
  {}

  lemma UserSendTraffic(s: System, a: Action, c: ConnId)
    requires Placed(s) && Enabled(s, a) && a.UserSend? && c in s.conns
    ensures Even(TrafficOf(s, a, c), Given(s, a, c))
  {
    var x := if c == a.c && s.conns[c].state == C.kConnected then [a.data] else [];
    GivenIs(s, a, c);
    if s.conns[a.c].state == C.kConnected && a.t == OnLoop(s.conns[a.c].loop) {
      DirectSendTraffic(s, a, c);
      SentNow(TrafficOf(s, a, c), x);
    } else {
      QueuedSendTraffic(s, a, c);
      SentLater(TrafficOf(s, a, c), x);
    }
  }

  lemma ShutdownOps(s: System, a: Action, c: ConnId)
    requires Enabled(s, a) && a.UserShutdown? && c in s.conns
    ensures C.Sent(OpsOn(s, a, c)) == []
  {
    SentByOne(C.ShutdownFlag);
    assert [C.ShutdownFlag, C.ShutdownRun][..1] == [C.ShutdownFlag];
  }

  lemma ShutdownInflight(s: System, a: Action, c: ConnId)
    requires Placed(s) && Enabled(s, a) && a.UserShutdown?
    ensures SendsIn(Do(s, a).inflight, c) == SendsIn(s.inflight, c)
  {
    SendsAdd(s.inflight, [ShutdownTask(a.c)], c);
    OneSend(ShutdownTask(a.c), c);
  }

  lemma ShutdownTraffic(s: System, a: Action, c: ConnId)
    requires Placed(s) && Enabled(s, a) && a.UserShutdown? && c in s.conns
    ensures Even(TrafficOf(s, a, c), multiset{})
  {
    ShutdownOps(s, a, c);
    ShutdownInflight(s, a, c);
    Untouched(TrafficOf(s, a, c));
  }

  lemma TakenOut(q: seq<Task>, i: nat, c: ConnId)
    requires i < |q|
    ensures multiset(SendsIn([q[i]], c)) + multiset(SendsIn(q[..i] + q[i + 1..], c)) == multiset(SendsIn(q, c))
  {
    assert q == q[..i] + [q[i]] + q[i + 1..];
    SendsAdd(q[..i] + [q[i]], q[i + 1..], c);
    SendsAdd(q[..i], [q[i]], c);
    SendsAdd(q[..i], q[i + 1..], c);
  }

  lemma DeliverTraffic(s: System, i: nat, c: ConnId)
    requires Inv(s) && Enabled(s, Deliver(i)) && c in s.conns
    ensures Even(TrafficOf(s, Deliver(i), c), multiset{})
  {
    var f := s.inflight[i];
    assert f in s.inflight;
    TakenOut(s.inflight, i, c);
    DeliverAdds(s, i, c);
    assert C.Sent([]) == [];
  }

  lemma DeliverAdds(s: System, i: nat, c: ConnId)
    requires Placed(s) && Enabled(s, Deliver(i)) && c in s.conns
    ensures SendsIn(Added(s, Deliver(i), s.conns[c].loop), c) == SendsIn([s.inflight[i]], c)
    ensures Do(s, Deliver(i)).inflight == s.inflight[..i] + s.inflight[i + 1..]
  {
    OneSend(s.inflight[i], c);
  }

  lemma DestroyServerTraffic(s: System, d: ConnId, c: ConnId)
    requires Placed(s) && Enabled(s, DestroyServer(d)) && c in s.conns
    ensures Even(TrafficOf(s, DestroyServer(d), c), multiset{})
  {
    PostsHaveNoSends(s.conns[d], d, C.Destroy, c);
    NoSends([Destroyed(d)], c);
    SentByOne(C.Destroy);
    Untouched(TrafficOf(s, DestroyServer(d), c));
  }

  lemma OtherTraffic(s: System, a: Action, c: ConnId)
    requires Placed(s) && Enabled(s, a) && c in s.conns
    requires !a.RunOp? && !a.RunTask? && !a.UserSend? && !a.UserShutdown? && !a.Deliver? && !a.DestroyServer?
    ensures Even(TrafficOf(s, a, c), multiset{})
  {
    NoSends(Added(s, a, s.conns[c].loop), c);
    Untouched(TrafficOf(s, a, c));
  }

  lemma StepTraffic(s: System, a: Action, c: ConnId)
    requires Inv(s) && Enabled(s, a) && c in s.conns
    ensures Even(TrafficOf(s, a, c), Given(s, a, c))
  {
    if a.RunOp? {
      HandlerTraffic(s, a.l, a.read, a.wr, c);
    } else if a.RunTask? {
      FunctorTraffic(s, a.l, a.wr, c);
    } else if a.UserSend? {
      UserSendTraffic(s, a, c);
    } else if a.UserShutdown? {
      ShutdownTraffic(s, a, c);
    } else if a.Deliver? {
      DeliverTraffic(s, a.i, c);
    } else if a.DestroyServer? {
      DestroyServerTraffic(s, a.c, c);
    } else {
      OtherTraffic(s, a, c);
    }
  }

  lemma Balance(t: Traffic, given: multiset<seq<Byte>>, q: seq<seq<Byte>>, q': seq<seq<Byte>>,
                o: seq<seq<Byte>>, o': multiset<seq<Byte>>)
    requires Even(t, given) && q + t.added == t.ran + q' && o' == multiset(o) + multiset(t.sent)
    ensures o' + (multiset(q') + multiset(t.left)) == multiset(o) + (multiset(q) + multiset(t.was)) + given
  {
    assert multiset(q + t.added) == multiset(t.ran + q');
    assert multiset(q) + multiset(t.added) == multiset(t.ran) + multiset(q');
    forall x: seq<Byte>
      ensures (o' + (multiset(q') + multiset(t.left)))[x] == (multiset(o) + (multiset(q) + multiset(t.was)) + given)[x]
    {
      assert (multiset(t.sent) + multiset(t.added) + multiset(t.left))[x] == (multiset(t.ran) + multiset(t.was) + given)[x];
      assert (multiset(q) + multiset(t.added))[x] == (multiset(t.ran) + multiset(q'))[x];
    }
  }

  /** Conservation in one step: what waits and what reached the connection changes by what the
      step is given, and by nothing else. */
  lemma StepConserves(s: System, a: Action, c: ConnId)
    requires Inv(s) && Enabled(s, a) && c in s.conns && Placed(Do(s, a))
    ensures c in Do(s, a).conns
    ensures Reached(Do(s, a), c) + Waiting(Do(s, a), c) == Reached(s, c) + Waiting(s, c) + Given(s, a, c)
  {
    var l := s.conns[c].loop;
    StepSameLoops(s, a);
    PlaceKept(s, a, c);
    StepReaches(s, a, c);
    StepSends(s, a, c);
    StepTraffic(s, a, c);
    Balance(TrafficOf(s, a, c), Given(s, a, c), SendsIn(Rest(s.loops[l]), c), SendsIn(Rest(Do(s, a).loops[l]), c),
            C.Contents(s.conns[c].offered), Reached(Do(s, a), c));
  }

  // Over runs.

  /** A connection that does not exist has been given nothing. */
  lemma {:induction false} NoCallsBefore(s: System, acts: seq<Action>, c: ConnId)
    requires Initial(s) && ValidRun(s, acts) && c !in End(s, acts).conns
    ensures Calls(s, acts, c) == multiset{}
    decreases |acts|
  {
    if acts != [] {
      var e, a := End(s, acts[..|acts| - 1]), acts[|acts| - 1];
      ReachableInv(s, acts[..|acts| - 1]);
      if c in e.conns {
        PlaceKept(e, a, c);
      }
      NoCallsBefore(s, acts[..|acts| - 1], c);
    }
  }

  lemma NothingWaits(s: System, a: Action)
    requires Inv(s) && Enabled(s, a) && a.Accept? && Placed(Do(s, a))
    ensures s.nextId in Do(s, a).conns
    ensures Reached(Do(s, a), s.nextId) == multiset{} && Waiting(Do(s, a), s.nextId) == multiset{}
  {
    var l := Place(|s.loops| - 1, s.nextId);
    PlaceFits(|s.loops| - 1, s.nextId);
    NewEntry(s, a);
    NewcomerOffers(s, a);
    NewcomerQueue(s, a, l);
    NewcomerFlies(s, a);
    NoneInFlight(s);
  }

  lemma NoneInFlight(s: System)
    requires InflightOk(s) && Placed(s)
    ensures SendsIn(s.inflight, s.nextId) == []
  {
    NoSends(s.inflight, s.nextId);
  }

  lemma NewcomerQueue(s: System, a: Action, l: nat)
    requires Inv(s) && Enabled(s, a) && a.Accept? && l < |s.loops|
    ensures l < |Do(s, a).loops| && Do(s, a).loops[l].pos <= |Do(s, a).loops[l].batch|
    ensures SendsIn(Rest(Do(s, a).loops[l]), s.nextId) == []
  {
    NoneAbout(s, l, s.nextId);
    StepQueue(s, a, l);
    AddedKinds(s, a, l);
    StillNoSends(Rest(s.loops[l]), Added(s, a, l), Rest(Do(s, a).loops[l]), s.nextId);
  }

  lemma StillNoSends(q: seq<Task>, added: seq<Task>, q': seq<Task>, c: ConnId)
    requires q + added == [] + q'
    requires (forall f :: f in q ==> !SendOf(f, c)) && (forall f :: f in added ==> !SendOf(f, c))
    ensures SendsIn(q', c) == []
  {
    assert q' == q + added;
    NoSends(q', c);
  }

  lemma NewcomerFlies(s: System, a: Action)
    requires Placed(s) && Enabled(s, a) && a.Accept?
    ensures Do(s, a).inflight == s.inflight
  {}

  lemma NewcomerOffers(s: System, a: Action)
    requires Inv(s) && Enabled(s, a) && a.Accept?
    ensures s.nextId in Do(s, a).conns && Do(s, a).conns[s.nextId].offered == []
  {
    PlaceFits(|s.loops| - 1, s.nextId);
    if |s.loops| == 1 {
      DirectShape(s, a);
    } else {
      QueuedShape(s, a);
    }
  }

  /** Every message given to `send()` while the connection was up, from any thread, has reached
      `sendInLoop` or is on its way: on the loop's queue, or with a thread about to queue it. None
      is lost, none arrives twice, and nothing else arrives. */
  lemma {:induction false} SendsConserved(s: System, acts: seq<Action>, c: ConnId)
    requires Initial(s) && ValidRun(s, acts) && c in End(s, acts).conns
    ensures var e := End(s, acts);
            && Placed(e)
            && multiset(C.Contents(e.conns[c].offered))
               + (multiset(SendsIn(Rest(e.loops[e.conns[c].loop]), c)) + multiset(SendsIn(e.inflight, c)))
               == Calls(s, acts, c)
    decreases |acts|
  {
    var before, a := acts[..|acts| - 1], acts[|acts| - 1];
    var e := End(s, before);
    ReachableInv(s, before);
    ReachableInv(s, acts);
    if c in e.conns {
      SendsConserved(s, before, c);
      StepConserves(e, a, c);
    } else {
      OnlyAcceptAdds(e, a, c);
      NoCallsBefore(s, before, c);
      NothingWaits(e, a);
    }
  }

  // Half-closes.

  /** How often user code has called `shutdown()` for `c` while it was up. */
  ghost function Asked(s: System, acts: seq<Action>, c: ConnId): nat
    requires ValidRun(s, acts)
    decreases |acts|
  {
    if acts == [] then 0
    else
      var e, a := End(s, acts[..|acts| - 1]), acts[|acts| - 1];
      Asked(s, acts[..|acts| - 1], c) + if Asks(e, a, c) then 1 else 0
  }

  ghost predicate Asks(e: System, a: Action, c: ConnId) {
    a.UserShutdown? && a.c == c && c in e.conns && e.conns[c].state == C.kConnected
  }

  /** The step performs `shutdownInLoop` for `c` because of a `shutdown()`: at once on the own
      thread, or from the queue. */
  ghost predicate Serves(e: System, a: Action, c: ConnId)
    requires Enabled(e, a)
  {
    || (Asks(e, a, c) && a.t == OnLoop(e.conns[c].loop))
    || (a.RunTask? && e.loops[a.l].batch[e.loops[a.l].pos] == ShutdownTask(c))
  }

  ghost function Served(s: System, acts: seq<Action>, c: ConnId): nat
    requires ValidRun(s, acts)
    decreases |acts|
  {
    if acts == [] then 0
    else
      var e, a := End(s, acts[..|acts| - 1]), acts[|acts| - 1];
      Served(s, acts[..|acts| - 1], c) + if Serves(e, a, c) then 1 else 0
  }

  /** The half-closes of `c` on their way. */
  ghost function Outstanding(s: System, c: ConnId): nat
    requires Placed(s) && c in s.conns
  {
    multiset(Rest(s.loops[s.conns[c].loop]))[ShutdownTask(c)] + multiset(s.inflight)[ShutdownTask(c)]
  }

  /** What kinds of functors a step can queue. */
  predicate OwnKind(f: Task) {
    f.Notify? || f.Established? || f.Destroyed? || f.RemoveInLoop?
  }

  lemma HandlerKinds(s: System, l: nat, read: ReadAnswer, wr: WriteResult)
    requires Enabled(s, RunOp(l, read, wr))
    ensures forall f :: f in HandlerMove(s, l, read, wr).fs ==> OwnKind(f)
  {
    var d, op := s.loops[l].frame.c, s.loops[l].frame.ops[0];
    if op in {DoDetach, Handle(CloseCallback), Handle(WriteCallback)} {
      PostsAreNotices(s.conns[d], d, HandlerOp(op, wr));
    }
  }

  lemma FunctorKinds(s: System, l: nat, wr: WriteResult)
    requires Enabled(s, RunTask(l, wr))
    ensures forall f :: f in FunctorMove(s, l, wr).fs ==> OwnKind(f)
  {
    match s.loops[l].batch[s.loops[l].pos]
    case Established(d) => PostsAreNotices(s.conns[d], d, C.Establish);
    case Destroyed(d) => PostsAreNotices(s.conns[d], d, C.Destroy);
    case SendTask(d, data) => PostsAreNotices(s.conns[d], d, C.Send(data, wr));
    case ShutdownTask(d) => PostsAreNotices(s.conns[d], d, C.ShutdownRun);
    case _ =>
  }

  lemma AddedKinds(s: System, a: Action, l: nat)
    requires Placed(s) && Enabled(s, a) && !a.UserQueue? && !a.Deliver?
    ensures forall f :: f in Added(s, a, l) ==> OwnKind(f)
  {
    if a.RunOp? {
      HandlerKinds(s, a.l, a.read, a.wr);
    } else if a.RunTask? {
      FunctorKinds(s, a.l, a.wr);
    } else if a.UserSend? {
      PostsAreNotices(s.conns[a.c], a.c, C.Send(a.data, a.wr));
    } else if a.DestroyServer? {
      PostsAreNotices(s.conns[a.c], a.c, C.Destroy);
    }
  }

  lemma QueueCount(s: System, a: Action, l: nat, f: Task)
    requires Inv(s) && Enabled(s, a) && l < |s.loops|
    ensures l < |Do(s, a).loops| && Do(s, a).loops[l].pos <= |Do(s, a).loops[l].batch|
    ensures multiset(Rest(s.loops[l]))[f] + multiset(Added(s, a, l))[f]
            == multiset(RanNow(s, a, l))[f] + multiset(Rest(Do(s, a).loops[l]))[f]
  {
    StepQueue(s, a, l);
    CountSums(Rest(s.loops[l]), Added(s, a, l), RanNow(s, a, l), Rest(Do(s, a).loops[l]), f);
  }

  lemma CountSums(q: seq<Task>, added: seq<Task>, ran: seq<Task>, q': seq<Task>, f: Task)
    requires q + added == ran + q'
    ensures multiset(q)[f] + multiset(added)[f] == multiset(ran)[f] + multiset(q')[f]
  {
    assert multiset(q + added)[f] == multiset(ran + q')[f];
  }

  /** A half-close asked for goes into flight unless it is served at once; delivery moves it to
      the loop's queue. */
  lemma StepFlies(s: System, a: Action, c: ConnId)
    requires Inv(s) && Enabled(s, a) && c in s.conns
    ensures var f, l := ShutdownTask(c), s.conns[c].loop;
            multiset(Do(s, a).inflight)[f] + multiset(Added(s, a, l))[f] + (if Serves(s, a, c) && a.UserShutdown? then 1 else 0)
            == multiset(s.inflight)[f] + if Asks(s, a, c) then 1 else 0
  {
    if a.Deliver? {
      DeliverFlies(s, a.i, c);
    } else {
      NoneAdded(s, a, c);
      if a.RunOp? {
        HandlerInflight(s, a.l, a.read, a.wr);
      } else if a.RunTask? {
        FunctorInflight(s, a.l, a.wr);
      } else if a.UserShutdown? {
        AskedFlies(s, a, c);
      } else {
        OthersFly(s, a, c);
      }
    }
  }

  lemma NoneAdded(s: System, a: Action, c: ConnId)
    requires Placed(s) && Enabled(s, a) && c in s.conns && !a.Deliver?
    ensures multiset(Added(s, a, s.conns[c].loop))[ShutdownTask(c)] == 0
  {
    if !a.UserQueue? {
      AddedKinds(s, a, s.conns[c].loop);
    }
    assert ShutdownTask(c) !in Added(s, a, s.conns[c].loop);
  }

  lemma AskedFlies(s: System, a: Action, c: ConnId)
    requires Placed(s) && Enabled(s, a) && c in s.conns && a.UserShutdown?
    ensures multiset(Do(s, a).inflight)[ShutdownTask(c)] + (if Serves(s, a, c) then 1 else 0)
            == multiset(s.inflight)[ShutdownTask(c)] + if Asks(s, a, c) then 1 else 0
  {}

  lemma OthersFly(s: System, a: Action, c: ConnId)
    requires Placed(s) && Enabled(s, a) && c in s.conns
    requires !a.Deliver? && !a.RunOp? && !a.RunTask? && !a.UserShutdown?
    ensures multiset(Do(s, a).inflight)[ShutdownTask(c)] == multiset(s.inflight)[ShutdownTask(c)]
  {
    if a.UserSend? {
      assert SendTask(a.c, a.data) != ShutdownTask(c);
    }
  }

  lemma CountTakenOut(q: seq<Task>, i: nat, f: Task)
    requires i < |q|
    ensures multiset(q[..i] + q[i + 1..])[f] + (if q[i] == f then 1 else 0) == multiset(q)[f]
  {
    assert q == q[..i] + [q[i]] + q[i + 1..];
    assert multiset(q) == multiset(q[..i]) + multiset([q[i]]) + multiset(q[i + 1..]);
  }

  lemma DeliverFlies(s: System, i: nat, c: ConnId)
    requires Placed(s) && Enabled(s, Deliver(i)) && c in s.conns
    ensures var f, l := ShutdownTask(c), s.conns[c].loop;
            multiset(Do(s, Deliver(i)).inflight)[f] + multiset(Added(s, Deliver(i), l))[f] == multiset(s.inflight)[f]
  {
    CountTakenOut(s.inflight, i, ShutdownTask(c));
    DeliverCounts(s, i, c);
    DeliverAdds(s, i, c);
  }

  lemma DeliverCounts(s: System, i: nat, c: ConnId)
    requires Placed(s) && Enabled(s, Deliver(i)) && c in s.conns
    ensures multiset(Added(s, Deliver(i), s.conns[c].loop))[ShutdownTask(c)]
            == if s.inflight[i] == ShutdownTask(c) then 1 else 0
  {}

  /** One step: asked for is served or still outstanding. */
  lemma StepServes(s: System, a: Action, c: ConnId)
    requires Inv(s) && Enabled(s, a) && c in s.conns && Placed(Do(s, a))
    ensures c in Do(s, a).conns
    ensures Outstanding(Do(s, a), c) + (if Serves(s, a, c) then 1 else 0)
            == Outstanding(s, c) + if Asks(s, a, c) then 1 else 0
  {
    PlaceKept(s, a, c);
    QueueCount(s, a, s.conns[c].loop, ShutdownTask(c));
    StepFlies(s, a, c);
    HeadOnOwnLoop(s, a, c);
  }

  lemma HeadOnOwnLoop(s: System, a: Action, c: ConnId)
    requires Inv(s) && Enabled(s, a) && c in s.conns
    ensures multiset(RanNow(s, a, s.conns[c].loop))[ShutdownTask(c)]
            == if a.RunTask? && s.loops[a.l].batch[s.loops[a.l].pos] == ShutdownTask(c) then 1 else 0
  {
    if a.RunTask? {
      RestPopped(s.loops[a.l]);
      assert LoopOk(s.conns, a.l, s.loops[a.l]) && TaskOk(s.conns, a.l, s.loops[a.l].batch[s.loops[a.l].pos]);
    }
  }

  lemma {:induction false} NoneAskedBefore(s: System, acts: seq<Action>, c: ConnId)
    requires Initial(s) && ValidRun(s, acts) && c !in End(s, acts).conns
    ensures Asked(s, acts, c) == 0 && Served(s, acts, c) == 0
    decreases |acts|
  {
    if acts != [] {
      var e, a := End(s, acts[..|acts| - 1]), acts[|acts| - 1];
      ReachableInv(s, acts[..|acts| - 1]);
      if c in e.conns {
        PlaceKept(e, a, c);
      }
      NoneAskedBefore(s, acts[..|acts| - 1], c);
      HeadIsKnown(e, a, c);
    }
  }

  lemma HeadIsKnown(e: System, a: Action, c: ConnId)
    requires Inv(e) && Enabled(e, a) && c !in e.conns
    ensures !Serves(e, a, c)
  {
    if a.RunTask? {
      assert Enabled(e, RunTask(a.l, a.wr));
    }
  }

  lemma NoneOutstanding(s: System, a: Action)
    requires Inv(s) && Enabled(s, a) && a.Accept? && Placed(Do(s, a))
    ensures s.nextId in Do(s, a).conns && Outstanding(Do(s, a), s.nextId) == 0
  {
    var c, l := s.nextId, Place(|s.loops| - 1, s.nextId);
    PlaceFits(|s.loops| - 1, s.nextId);
    NewEntry(s, a);
    NoneAbout(s, l, c);
    QueueCount(s, a, l, ShutdownTask(c));
    AddedKinds(s, a, l);
    assert ShutdownTask(c) !in Rest(s.loops[l]) && ShutdownTask(c) !in Added(s, a, l);
    NewcomerFlies(s, a);
    assert ShutdownTask(c) !in s.inflight;
  }

  /** Every `shutdown()` called while the connection was up has performed its `shutdownInLoop`,
      or is on its way; no other has. */
  lemma {:induction false} ShutdownsConserved(s: System, acts: seq<Action>, c: ConnId)
    requires Initial(s) && ValidRun(s, acts) && c in End(s, acts).conns
    ensures var e := End(s, acts);
            && Placed(e)
            && Served(s, acts, c) + (multiset(Rest(e.loops[e.conns[c].loop]))[ShutdownTask(c)]
                                     + multiset(e.inflight)[ShutdownTask(c)])
               == Asked(s, acts, c)
    decreases |acts|
  {
    var before, a := acts[..|acts| - 1], acts[|acts| - 1];
    var e := End(s, before);
    ReachableInv(s, before);
    ReachableInv(s, acts);
    if c in e.conns {
      ShutdownsConserved(s, before, c);
      StepServes(e, a, c);
    } else {
      OnlyAcceptAdds(e, a, c);
      NoneAskedBefore(s, before, c);
      HeadIsKnown(e, a, c);
      NoneOutstanding(e, a);
    }
  }

  /** Serving is performing: the connection's own loop ran `shutdownInLoop`. */
  lemma ServedRan(s: System, a: Action, c: ConnId)
    requires Inv(s) && Enabled(s, a) && c in s.conns && Serves(s, a, c)
    ensures C.ShutdownRun in OpsOn(s, a, c)
  {}

  lemma StepRan(s: System, a: Action, c: ConnId)
    requires Inv(s) && Enabled(s, a) && c in s.conns && (s.conns[c].shutRan || Serves(s, a, c))
    ensures c in Do(s, a).conns && Do(s, a).conns[c].shutRan
  {
    StepProjects(s, a, c);
    if Serves(s, a, c) {
      ServedRan(s, a, c);
    }
    C.ShutdownLasts(s.conns[c], OpsOn(s, a, c));
  }

  lemma {:induction false} ServedIsRan(s: System, acts: seq<Action>, c: ConnId)
    requires Initial(s) && ValidRun(s, acts) && c in End(s, acts).conns && Served(s, acts, c) > 0
    ensures End(s, acts).conns[c].shutRan
    decreases |acts|
  {
    var before, a := acts[..|acts| - 1], acts[|acts| - 1];
    var e := End(s, before);
    ReachableInv(s, before);
    if c in e.conns {
      if Served(s, before, c) > 0 {
        ServedIsRan(s, before, c);
      }
      StepRan(e, a, c);
    } else {
      NoneAskedBefore(s, before, c);
      HeadIsKnown(e, a, c);
    }
  }

  /** What a `shutdown()` comes to: as soon as its functor is no longer on its way, the
      connection is down, or its write half is closed, or output is pending with write interest
      on, whose drain closes it. */
  lemma ShutdownTakesEffect(s: System, acts: seq<Action>, c: ConnId)
    requires Initial(s) && ValidRun(s, acts) && c in End(s, acts).conns && Asked(s, acts, c) > 0
    ensures var e := End(s, acts);
            && Placed(e)
            && (|| Outstanding(e, c) > 0
                || e.conns[c].state == C.kDisconnected
                || (e.conns[c].state == C.kDisconnecting
                    && (e.conns[c].shutWr || (e.conns[c].out != [] && e.conns[c].Writing()))))
  {
    var e := End(s, acts);
    ReachableInv(s, acts);
    ShutdownsConserved(s, acts, c);
    if Outstanding(e, c) == 0 {
      ServedIsRan(s, acts, c);
      assert ConnOk(e, c);
    }
  }

  // User functors.

  /** How often user code has queued a functor on loop `l`. */
  function UserQueued(acts: seq<Action>, l: nat): nat {
    if acts == [] then 0
    else
      var a := acts[|acts| - 1];
      UserQueued(acts[..|acts| - 1], l) + if a.UserQueue? && a.l == l then 1 else 0
  }

  lemma StepUserTasks(s: System, a: Action, l: nat)
    requires Inv(s) && Enabled(s, a) && l < |s.loops|
    ensures multiset(Added(s, a, l))[UserTask] == if a.UserQueue? && a.l == l then 1 else 0
  {
    if a.Deliver? {
      assert s.inflight[a.i] in s.inflight;
    } else if !a.UserQueue? {
      AddedKinds(s, a, l);
      assert UserTask !in Added(s, a, l);
    }
  }

  lemma QueuedIs(s: System, acts: seq<Action>, l: nat)
    requires Initial(s) && ValidRun(s, acts) && acts != [] && l < |s.loops|
    ensures var e := End(s, acts[..|acts| - 1]);
            && Placed(e)
            && EverQueued(s, acts, l) == EverQueued(s, acts[..|acts| - 1], l) + Added(e, acts[|acts| - 1], l)
  {
    var before, a := acts[..|acts| - 1], acts[|acts| - 1];
    ReachableInv(s, before);
    LoopsStay(s, before);
    var e := End(s, before);
    StepQueue(e, a, l);
    Extends(Ran(s, before, l), Unrun(e, l), Added(e, a, l), RanNow(e, a, l), Unrun(Do(e, a), l));
  }

  /** Every functor user code queues, from any thread, is run by that loop or still to be run,
      exactly once. */
  lemma {:induction false} UserTasksConserved(s: System, acts: seq<Action>, l: nat)
    requires Initial(s) && ValidRun(s, acts) && l < |s.loops|
    ensures multiset(EverQueued(s, acts, l))[UserTask] == UserQueued(acts, l)
    decreases |acts|
  {
    if acts == [] {
      assert EverQueued(s, [], l) == [];
    } else {
      var before, a := acts[..|acts| - 1], acts[|acts| - 1];
      UserTasksConserved(s, before, l);
      ReachableInv(s, before);
      LoopsStay(s, before);
      QueuedIs(s, acts, l);
      StepUserTasks(End(s, before), a, l);
      CountAppends(EverQueued(s, before, l), Added(End(s, before), a, l), UserTask);
    }
  }

  lemma CountAppends(p: seq<Task>, q: seq<Task>, f: Task)
    ensures multiset(p + q)[f] == multiset(p)[f] + multiset(q)[f]
  {}
}
