/** Why the runs of `ReactorSafety` exclude late sends that register a removed channel again:
    a run in which a channel outlives its connection. One IO loop, one connection on
    descriptor 7; the server is destroyed, and only then the user, who kept a reference,
    sends a message and half-closes. */
module ReactorLateSend {
  import opened Registration
  import opened ByteBuffer
  import opened Reactor
  import opened ReactorInvariant
  import opened ReactorOwnership
  import opened ReactorRuns
  import opened ReactorSafety
  import C = Connection

  const MESSAGE: seq<Byte> := [1]
  const SEND: Task := SendTask(0, MESSAGE)
  const STOP: Task := ShutdownTask(0)
  const NOTHING: WriteResult := WriteFailed(EWOULDBLOCK)
  const EMPTY: Poller<ConnId> := Poller(map[], map[])
  const ADDED: Poller<ConnId> := Poller(map[7 := 0], map[7 := READ_EVENT])
  const BACK: Poller<ConnId> := Poller(map[7 := 0], map[7 := READ_EVENT + WRITE_EVENT])
  const IDLE: Loop := Turn(Idle, [])
  const NOBODY: System := System(map[], {}, [IDLE, IDLE], [EMPTY, EMPTY], {}, [], 0)

  const FRESH: C.Conn := NewConn(7, 1, 0, false, false)
  const UP: C.Conn := FRESH.(state := C.kConnected, index := KAdded, events := READ_EVENT, edges := [C.Up])
  const GOING: C.Conn := UP.(state := C.kDisconnecting)
  const GONE: C.Conn := GOING.(index := KNew)
  const LATE: C.Conn :=
    GOING.(events := READ_EVENT + WRITE_EVENT, out := MESSAGE, offered := [C.Message(MESSAGE, true)])
  const OVER: C.Conn := LATE.(shutRan := true)

  function Turn(phase: Phase, pending: seq<Task>): Loop {
    Loop(pending, [], 0, phase, [], NoFrame)
  }

  function Batch(batch: seq<Task>, pos: nat, frame: Frame): Loop {
    Loop([], batch, pos, Calling, [], frame)
  }

  function Net(k: C.Conn, entries: set<ConnId>, main: Loop, io: Loop, p: Poller<ConnId>, held: set<ConnId>,
               inflight: seq<Task>): System
  {
    System(map[0 := k], entries, [main, io], [EMPTY, p], held, inflight, 1)
  }

  const OPENING: seq<Task> := [Established(0)]
  const CLOSING: seq<Task> := [Task.Destroyed(0), SEND, STOP]

  function Act(i: nat): Action {
    if i == 0 then Poll(0, [])
    else if i == 1 then Accept(7, 0, false, false)
    else if i == 2 then SwapPending(0)
    else if i == 3 then EndBatch(0)
    else if i == 4 then Poll(1, [])
    else if i == 5 then SwapPending(1)
    else if i == 6 then RunTask(1, NOTHING)
    else if i == 7 then Hold(0)
    else if i == 8 then RunOp(1, GotError, NOTHING)
    else if i == 9 then EndFrame(1)
    else if i == 10 then EndBatch(1)
    else if i == 11 then DestroyServer(0)
    else if i == 12 then UserSend(Outside, 0, MESSAGE, NOTHING)
    else if i == 13 then Deliver(0)
    else if i == 14 then UserShutdown(Outside, 0)
    else if i == 15 then Deliver(0)
    else if i == 16 then Poll(1, [])
    else if i == 17 then SwapPending(1)
    else if i == 18 then RunTask(1, NOTHING)
    else if i == 19 then RunOp(1, GotError, NOTHING)
    else if i == 20 then EndFrame(1)
    else if i == 21 then RunTask(1, NOTHING)
    else if i == 22 then RunTask(1, NOTHING)
    else if i == 23 then EndBatch(1)
    else Drop(0)
  }

  /** The state before step `i`. */
  function Stage(i: nat): System {
    if i == 0 then NOBODY
    else if i == 1 then NOBODY.(loops := [Turn(Dispatching, []), IDLE])
    else if i == 2 then Net(FRESH, {0}, Turn(Dispatching, []), Turn(Idle, OPENING), EMPTY, {}, [])
    else if i == 3 then Net(FRESH, {0}, Turn(Calling, []), Turn(Idle, OPENING), EMPTY, {}, [])
    else if i == 4 then Net(FRESH, {0}, IDLE, Turn(Idle, OPENING), EMPTY, {}, [])
    else if i == 5 then Net(FRESH, {0}, IDLE, Turn(Dispatching, OPENING), EMPTY, {}, [])
    else if i == 6 then Net(FRESH, {0}, IDLE, Batch(OPENING, 0, NoFrame), EMPTY, {}, [])
    else if i == 7 then Net(UP, {0}, IDLE, Batch(OPENING, 1, Frame(0, [UserCallback])), ADDED, {}, [])
    else if i == 8 then Net(UP, {0}, IDLE, Batch(OPENING, 1, Frame(0, [UserCallback])), ADDED, {0}, [])
    else if i == 9 then Net(UP, {0}, IDLE, Batch(OPENING, 1, Frame(0, [])), ADDED, {0}, [])
    else if i == 10 then Net(UP, {0}, IDLE, Batch(OPENING, 1, NoFrame), ADDED, {0}, [])
    else if i == 11 then Net(UP, {0}, IDLE, IDLE, ADDED, {0}, [])
    else if i == 12 then Net(UP, {}, IDLE, Turn(Idle, CLOSING[..1]), ADDED, {0}, [])
    else if i == 13 then Net(UP, {}, IDLE, Turn(Idle, CLOSING[..1]), ADDED, {0}, [SEND])
    else if i == 14 then Net(UP, {}, IDLE, Turn(Idle, CLOSING[..2]), ADDED, {0}, [])
    else if i == 15 then Net(GOING, {}, IDLE, Turn(Idle, CLOSING[..2]), ADDED, {0}, [STOP])
    else if i == 16 then Net(GOING, {}, IDLE, Turn(Idle, CLOSING), ADDED, {0}, [])
    else if i == 17 then Net(GOING, {}, IDLE, Turn(Dispatching, CLOSING), ADDED, {0}, [])
    else if i == 18 then Net(GOING, {}, IDLE, Batch(CLOSING, 0, NoFrame), ADDED, {0}, [])
    else if i == 19 then Net(GOING, {}, IDLE, Batch(CLOSING, 1, Frame(0, [DoDetach])), ADDED, {0}, [])
    else if i == 20 then Net(GONE, {}, IDLE, Batch(CLOSING, 1, Frame(0, [])), EMPTY, {0}, [])
    else if i == 21 then Net(GONE, {}, IDLE, Batch(CLOSING, 1, NoFrame), EMPTY, {0}, [])
    else if i == 22 then Net(LATE, {}, IDLE, Batch(CLOSING, 2, NoFrame), BACK, {0}, [])
    else if i == 23 then Net(OVER, {}, IDLE, Batch(CLOSING, 3, NoFrame), BACK, {0}, [])
    else if i == 24 then Net(OVER, {}, IDLE, IDLE, BACK, {0}, [])
    else Net(OVER, {}, IDLE, IDLE, BACK, {}, [])
  }

  ghost predicate StepTo(s: System, a: Action, s': System) {
    |s.loops| == |s.pollers| && Enabled(s, a) && Do(s, a) == s'
  }

  /** Replacing a loop of the two. */
  lemma OneLoop(s: System, l: nat, lp: Loop, s': System)
    requires |s.loops| == |s'.loops| == 2 && l < 2 && s' == s.(loops := s'.loops)
    requires s'.loops[l] == lp && s'.loops[1 - l] == s.loops[1 - l]
    ensures SetLoop(s, l, lp) == s'
  {
    assert s'.loops == s.loops[l := lp];
  }

  // One lemma for each kind of step.

  lemma Polls(s: System, l: nat)
    requires |s.loops| == |s.pollers| && l < |s.loops| && s.loops[l].phase.Idle? && s.loops[l].frame.NoFrame?
    ensures StepTo(s, Poll(l, []), SetLoop(s, l, s.loops[l].(phase := Dispatching, active := [])))
  {}

  lemma Swaps(s: System, l: nat)
    requires |s.loops| == |s.pollers| && l < |s.loops| && s.loops[l].phase.Dispatching?
    requires s.loops[l].frame.NoFrame? && s.loops[l].active == []
    ensures StepTo(s, SwapPending(l),
                   SetLoop(s, l, s.loops[l].(phase := Calling, batch := s.loops[l].pending, pos := 0, pending := [])))
  {}

  lemma EndsBatch(s: System, l: nat)
    requires |s.loops| == |s.pollers| && l < |s.loops| && s.loops[l].phase.Calling?
    requires s.loops[l].frame.NoFrame? && s.loops[l].pos == |s.loops[l].batch|
    ensures StepTo(s, EndBatch(l), SetLoop(s, l, s.loops[l].(phase := Idle, batch := [], pos := 0)))
  {}

  lemma EndsFrame(s: System, l: nat)
    requires |s.loops| == |s.pollers| && l < |s.loops| && s.loops[l].frame.Frame? && s.loops[l].frame.ops == []
    ensures StepTo(s, EndFrame(l), SetFrame(s, l, NoFrame))
  {}

  lemma Accepts()
    ensures StepTo(Stage(1), Act(1), Stage(2))
  {
    assert Place(1, 0) == 1 && [] + [Established(0)] == OPENING;
    assert Stage(1).conns[0 := FRESH] == map[0 := FRESH] && {} + {0} == {0};
    OneLoop(Stage(2).(loops := Stage(1).loops), 1, Turn(Idle, OPENING), Stage(2));
  }

  lemma Establishing()
    ensures C.Apply(FRESH, C.Establish) == C.Effect(UP, [], C.Update)
    ensures C.PollerAfter(EMPTY, 0, FRESH, C.Effect(UP, [], C.Update)) == ADDED
  {}

  /** An operation of the connection on the IO loop that queues no callback. */
  lemma Operates(s: System, op: C.Op, k: C.Conn, p: Poller<ConnId>)
    requires |s.loops| == |s.pollers| == 2 && 0 in s.conns && s.conns[0].loop == 1
    requires C.Possible(s.conns[0], op)
    requires var e := C.Apply(s.conns[0], op);
             e.conn == k && e.posts == [] && C.PollerAfter(s.pollers[1], 0, s.conns[0], e) == p
    ensures ConnDo(s, 0, op) == s.(conns := s.conns[0 := k], pollers := s.pollers[1 := p])
  {
    NoPostsAppended(s, 0, op);
  }

  lemma Establishes()
    ensures StepTo(Stage(6), Act(6), Stage(7))
  {
    var s1 := Net(FRESH, {0}, IDLE, Batch(OPENING, 1, NoFrame), EMPTY, {}, []);
    var s2 := Net(UP, {0}, IDLE, Batch(OPENING, 1, NoFrame), ADDED, {}, []);
    Establishing();
    OneLoop(Stage(6), 1, Batch(OPENING, 1, NoFrame), s1);
    Operates(s1, C.Establish, UP, ADDED);
    assert ConnDo(s1, 0, C.Establish) == s2;
    OneLoop(s2, 1, Batch(OPENING, 1, Frame(0, [UserCallback])), Stage(7));
  }

  lemma CallsBack()
    ensures StepTo(Stage(8), Act(8), Stage(9))
  {
    assert [UserCallback][1..] == [];
    OneLoop(Stage(8), 1, Batch(OPENING, 1, Frame(0, [])), Stage(9));
  }

  lemma DestroysServer()
    ensures StepTo(Stage(11), Act(11), Stage(12))
  {
    assert {0} - {0} == {} && [] + [Task.Destroyed(0)] == CLOSING[..1];
    OneLoop(Stage(11).(connections := {}), 1, Turn(Idle, CLOSING[..1]), Stage(12));
  }

  lemma UserSends()
    ensures StepTo(Stage(12), Act(12), Stage(13))
  {}

  lemma Flagging()
    ensures C.Apply(UP, C.ShutdownFlag) == C.Effect(GOING, [], C.NoRequest)
  {}

  lemma UserStops()
    ensures StepTo(Stage(14), Act(14), Stage(15))
  {
    Flagging();
    Operates(Stage(14), C.ShutdownFlag, GOING, ADDED);
    Flagged(Stage(14), ConnDo(Stage(14), 0, C.ShutdownFlag));
    assert ConnDo(Stage(14), 0, C.ShutdownFlag) == Stage(15).(inflight := []);
    assert [] + [STOP] == [STOP];
  }

  lemma Flagged(s: System, s1: System)
    requires |s.loops| == |s.pollers| && Located(s, 0) && Alive(s, 0) && s.conns[0].state == C.kConnected
    requires s1 == ConnDo(s, 0, C.ShutdownFlag)
    ensures StepTo(s, UserShutdown(Outside, 0), s1.(inflight := s1.inflight + [STOP]))
  {}

  lemma Delivers(i: nat, f: Task, fs: seq<Task>)
    requires |Stage(i).loops| == |Stage(i).pollers| == 2 && Stage(i).inflight == [f] && Act(i) == Deliver(0)
    requires !f.UserTask? && Located(Stage(i), f.c) && Stage(i).conns[f.c].loop == 1
    requires Stage(i + 1) == SetLoop(Stage(i).(inflight := []), 1, Stage(i).loops[1].(pending := fs))
    requires fs == Stage(i).loops[1].pending + [f]
    ensures StepTo(Stage(i), Act(i), Stage(i + 1))
  {
    assert [f][..0] + [f][1..] == [];
  }

  lemma DeliversSend()
    ensures StepTo(Stage(13), Act(13), Stage(14))
  {
    assert CLOSING[..1] + [SEND] == CLOSING[..2];
    OneLoop(Stage(13).(inflight := []), 1, Turn(Idle, CLOSING[..2]), Stage(14));
    Delivers(13, SEND, CLOSING[..2]);
  }

  lemma DeliversStop()
    ensures StepTo(Stage(15), Act(15), Stage(16))
  {
    assert CLOSING[..2] + [STOP] == CLOSING;
    OneLoop(Stage(15).(inflight := []), 1, Turn(Idle, CLOSING), Stage(16));
    Delivers(15, STOP, CLOSING);
  }

  lemma Destroying()
    ensures C.Apply(GOING, C.Destroy) == C.Effect(GOING, [], C.NoRequest)
  {}

  const STARTING: System := Net(GOING, {}, IDLE, Batch(CLOSING, 1, NoFrame), ADDED, {0}, [])

  lemma DestroyIsNext()
    ensures Enabled(Stage(18), Act(18)) && |Stage(18).loops| == |Stage(18).pollers| && Located(STARTING, 0)
  {}

  lemma TakesDestroyed()
    requires Enabled(Stage(18), Act(18)) && |Stage(18).loops| == |Stage(18).pollers| && Located(STARTING, 0)
    ensures Do(Stage(18), Act(18)) == SetFrame(ConnDo(STARTING, 0, C.Destroy), 1, Frame(0, [DoDetach]))
  {
    DestroyStarts(STARTING);
    RunsDestroyed(Stage(18), STARTING);
  }

  lemma RunsDestroyed(s: System, s1: System)
    requires |s.loops| == |s.pollers| == 2 && Enabled(s, RunTask(1, NOTHING))
    requires s.loops[1].batch[s.loops[1].pos] == Task.Destroyed(0)
    requires s1 == s.(loops := s1.loops) && |s1.loops| == 2 && s1.loops[0] == s.loops[0]
    requires s1.loops[1] == s.loops[1].(pos := s.loops[1].pos + 1) && Located(s1, 0)
    ensures Do(s, RunTask(1, NOTHING)) == StartDestroy(s1, 1, 0)
  {
    OneLoop(s, 1, s1.loops[1], s1);
  }

  lemma DestroyStarts(s: System)
    requires Located(s, 0) && |s.loops| == 2 && s.conns[0].state == C.kDisconnecting
    ensures StartDestroy(s, 1, 0) == SetFrame(ConnDo(s, 0, C.Destroy), 1, Frame(0, [DoDetach]))
  {
    assert [] + [DoDetach] == [DoDetach];
  }

  lemma NothingYet()
    requires Located(STARTING, 0)
    ensures SetFrame(ConnDo(STARTING, 0, C.Destroy), 1, Frame(0, [DoDetach])) == Stage(19)
  {
    Destroying();
    Operates(STARTING, C.Destroy, GOING, ADDED);
    assert ConnDo(STARTING, 0, C.Destroy) == STARTING;
    OneLoop(STARTING, 1, Batch(CLOSING, 1, Frame(0, [DoDetach])), Stage(19));
  }

  lemma Destroys()
    ensures StepTo(Stage(18), Act(18), Stage(19))
  {
    DestroyIsNext();
    TakesDestroyed();
    NothingYet();
  }

  lemma RunsDetach(s: System)
    requires |s.loops| == |s.pollers| == 2 && Located(s, 0) && s.loops[1].frame == Frame(0, [DoDetach])
    ensures StepTo(s, RunOp(1, GotError, NOTHING), SetFrame(ConnDo(s, 0, C.Detach), 1, Frame(0, [])))
  {
    assert [DoDetach][1..] == [];
  }

  lemma Detaches()
    ensures StepTo(Stage(19), Act(19), Stage(20))
  {
    var s1 := Net(GONE, {}, IDLE, Batch(CLOSING, 1, Frame(0, [DoDetach])), EMPTY, {0}, []);
    RunsDetach(Stage(19));
    Operates(Stage(19), C.Detach, GONE, EMPTY);
    assert ConnDo(Stage(19), 0, C.Detach) == s1;
    OneLoop(s1, 1, Batch(CLOSING, 1, Frame(0, [])), Stage(20));
  }

  /** The kernel takes nothing of the queued message. */
  lemma Buffering()
    ensures C.Possible(GONE, C.Send(MESSAGE, NOTHING))
    ensures C.Apply(GONE, C.Send(MESSAGE, NOTHING)) == C.Effect(LATE, [], C.Update)
    ensures C.PollerAfter(EMPTY, 0, GONE, C.Effect(LATE, [], C.Update)) == BACK
  {
    assert [] + MESSAGE[0..] == MESSAGE && MESSAGE[..0] == [];
  }

  /** What is left of the step once the functor is taken. */
  const TAKEN: System := Net(GONE, {}, IDLE, Batch(CLOSING, 2, NoFrame), EMPTY, {0}, [])
  const STOPPING: System := Net(LATE, {}, IDLE, Batch(CLOSING, 3, NoFrame), BACK, {0}, [])

  lemma SendIsNext()
    ensures Enabled(Stage(21), Act(21)) && |Stage(21).loops| == |Stage(21).pollers|
    ensures Located(TAKEN, 0) && C.Possible(TAKEN.conns[0], C.Send(MESSAGE, NOTHING))
  {}

  lemma RunsSend(s: System, s1: System)
    requires |s.loops| == |s.pollers| == 2 && Enabled(s, RunTask(1, NOTHING))
    requires s.loops[1].batch[s.loops[1].pos] == SEND
    requires s1 == s.(loops := s1.loops) && |s1.loops| == 2 && s1.loops[0] == s.loops[0]
    requires s1.loops[1] == s.loops[1].(pos := s.loops[1].pos + 1)
    requires Located(s1, 0) && C.Possible(s1.conns[0], C.Send(MESSAGE, NOTHING))
    ensures Do(s, RunTask(1, NOTHING)) == ConnDo(s1, 0, C.Send(MESSAGE, NOTHING))
  {
    OneLoop(s, 1, s1.loops[1], s1);
  }

  lemma Registers()
    requires Located(TAKEN, 0) && C.Possible(TAKEN.conns[0], C.Send(MESSAGE, NOTHING))
    ensures ConnDo(TAKEN, 0, C.Send(MESSAGE, NOTHING)) == Stage(22)
  {
    Buffering();
    Operates(TAKEN, C.Send(MESSAGE, NOTHING), LATE, BACK);
    assert TAKEN.conns[0 := LATE] == Stage(22).conns && TAKEN.pollers[1 := BACK] == Stage(22).pollers;
  }

  /** The late send registers the channel again. */
  lemma Sends()
    ensures StepTo(Stage(21), Act(21), Stage(22))
  {
    SendIsNext();
    RunsSend(Stage(21), TAKEN);
    Registers();
  }

  lemma TakesStop()
    ensures Enabled(Stage(22), Act(22)) && |Stage(22).loops| == |Stage(22).pollers|
    ensures Located(STOPPING, 0)
    ensures Do(Stage(22), Act(22)) == ConnDo(STOPPING, 0, C.ShutdownRun)
  {
    OneLoop(Stage(22), 1, Batch(CLOSING, 3, NoFrame), STOPPING);
  }

  lemma StaysOpen()
    requires Located(STOPPING, 0)
    ensures ConnDo(STOPPING, 0, C.ShutdownRun) == Stage(23)
  {
    Operates(STOPPING, C.ShutdownRun, OVER, BACK);
    assert STOPPING.conns[0 := OVER] == Stage(23).conns && STOPPING.pollers[1 := BACK] == Stage(23).pollers;
  }

  /** The half-close finds output pending and leaves it to a drain nobody will see. */
  lemma Stops()
    ensures StepTo(Stage(22), Act(22), Stage(23))
  {
    TakesStop();
    StaysOpen();
  }

  // The run.

  lemma MainTurns(i: nat)
    requires i in {0, 2, 3}
    ensures StepTo(Stage(i), Act(i), Stage(i + 1))
  {
    OneLoop(Stage(i), 0, Stage(i + 1).loops[0], Stage(i + 1));
    if i == 0 {
      Polls(Stage(i), 0);
    } else if i == 2 {
      Swaps(Stage(i), 0);
    } else {
      EndsBatch(Stage(i), 0);
    }
  }

  lemma IoTurns(i: nat)
    requires i in {4, 5, 9, 10}
    ensures StepTo(Stage(i), Act(i), Stage(i + 1))
  {
    OneLoop(Stage(i), 1, Stage(i + 1).loops[1], Stage(i + 1));
    if i == 4 {
      Polls(Stage(i), 1);
    } else if i == 5 {
      Swaps(Stage(i), 1);
    } else if i == 9 {
      EndsFrame(Stage(i), 1);
    } else {
      EndsBatch(Stage(i), 1);
    }
  }

  lemma IoTurnsAgain(i: nat)
    requires i in {16, 17, 20, 23}
    ensures StepTo(Stage(i), Act(i), Stage(i + 1))
  {
    OneLoop(Stage(i), 1, Stage(i + 1).loops[1], Stage(i + 1));
    if i == 16 {
      Polls(Stage(i), 1);
    } else if i == 17 {
      Swaps(Stage(i), 1);
    } else if i == 20 {
      EndsFrame(Stage(i), 1);
    } else {
      EndsBatch(Stage(i), 1);
    }
  }

  lemma References(i: nat)
    requires i == 7 || i == 24
    ensures StepTo(Stage(i), Act(i), Stage(i + 1))
  {}

  lemma EachStep(i: nat)
    requires i < 25
    ensures StepTo(Stage(i), Act(i), Stage(i + 1))
  {
    if i in {0, 2, 3} { MainTurns(i); }
    else if i in {4, 5, 9, 10} { IoTurns(i); }
    else if i in {16, 17, 20, 23} { IoTurnsAgain(i); }
    else if i in {7, 24} { References(i); }
    else if i == 13 { DeliversSend(); }
    else if i == 15 { DeliversStop(); }
    else if i == 1 { Accepts(); }
    else if i == 6 { Establishes(); }
    else if i == 8 { CallsBack(); }
    else if i == 11 { DestroysServer(); }
    else if i == 12 { UserSends(); }
    else if i == 14 { UserStops(); }
    else if i == 18 { Destroys(); }
    else if i == 19 { Detaches(); }
    else if i == 21 { Sends(); }
    else { Stops(); }
  }

  function Acts(n: nat): (r: seq<Action>)
    ensures |r| == n
  {
    if n == 0 then [] else Acts(n - 1) + [Act(n - 1)]
  }

  lemma {:induction false} RunTo(n: nat)
    requires n <= 25
    ensures ValidRun(NOBODY, Acts(n)) && End(NOBODY, Acts(n)) == Stage(n)
  {
    if n > 0 {
      RunTo(n - 1);
      EachStep(n - 1);
      assert Acts(n)[..n - 1] == Acts(n - 1);
    }
  }

  /** A valid run that leaves a channel registered with nobody owning its connection, and with
      nothing left to do on any loop or in any thread. */
  lemma LateSendDangles() returns (s: System, acts: seq<Action>)
    ensures Initial(s) && ValidRun(s, acts) && Dangling(End(s, acts), 0, 7, 1)
    ensures !TimelyRun(s, acts)
  {
    s, acts := NOBODY, Acts(25);
    RunTo(25);
    Unowned();
    NotTimely(s, acts);
  }

  /** Everything has come to rest, and the poller of loop `l` still has the channel of `c`,
      which nobody owns, under `fd`. */
  ghost predicate Dangling(e: System, c: ConnId, fd: int, l: nat) {
    && AtRest(e) && e.inflight == [] && e.held == {}
    && l < |e.pollers| && c in e.conns && !Alive(e, c)
    && e.pollers[l].Maps(fd, c) && fd in e.pollers[l].kernel
  }

  lemma NotTimely(s: System, acts: seq<Action>)
    requires Initial(s) && ValidRun(s, acts) && Dangling(End(s, acts), 0, 7, 1)
    ensures !TimelyRun(s, acts)
  {
    if TimelyRun(s, acts) {
      Ownership(s, acts, 1, 7);
    }
  }

  lemma Unowned()
    ensures Dangling(Stage(25), 0, 7, 1)
  {
    assert !HoldsOn(Stage(25).loops[0], 0) && !HoldsOn(Stage(25).loops[1], 0);
  }
}
