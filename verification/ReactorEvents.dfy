/** From the kernel's report to the callback: every report is handled in its turn, each bit
    starts the handlers it stands for, and each handler leads to what it is for. */
module ReactorEvents {
  import opened Registration
  import opened ByteBuffer
  import opened Reactor
  import opened ReactorInvariant
  import opened ReactorMoves
  import opened ReactorSteps
  import opened ReactorRemovals
  import opened ReactorOwnership
  import opened ReactorRuns
  import opened ReactorSafety
  import opened ReactorDelivery
  import C = Connection

  // Reports.

  /** A step of loop `l` that changes its phase or takes a report. */
  predicate Turns(a: Action, l: nat) {
    (a.Poll? || a.BeginEvent? || a.SwapPending? || a.EndBatch?) && a.l == l
  }

  lemma HandlerKeepsTurn(s: System, l: nat, read: ReadAnswer, wr: WriteResult, m: nat)
    requires Placed(s) && Enabled(s, RunOp(l, read, wr)) && m < |s.loops|
    ensures m < |DoRunOp(s, l, read, wr).loops|
    ensures var lp := DoRunOp(s, l, read, wr).loops[m];
            lp.phase == s.loops[m].phase && lp.active == s.loops[m].active
  {}

  lemma FunctorKeepsTurn(s: System, l: nat, wr: WriteResult, m: nat)
    requires Placed(s) && Enabled(s, RunTask(l, wr)) && m < |s.loops|
    ensures m < |DoRunTask(s, l, wr).loops|
    ensures var lp := DoRunTask(s, l, wr).loops[m];
            lp.phase == s.loops[m].phase && lp.active == s.loops[m].active
  {}

  lemma AcceptKeepsTurn(s: System, a: Action, m: nat)
    requires Placed(s) && Enabled(s, a) && (a.Accept? || a.DestroyServer?) && m < |s.loops|
    ensures m < |Do(s, a).loops|
    ensures Do(s, a).loops[m].phase == s.loops[m].phase && Do(s, a).loops[m].active == s.loops[m].active
  {}

  lemma UserKeepsTurn(s: System, a: Action, m: nat)
    requires Placed(s) && Enabled(s, a) && (a.UserSend? || a.UserShutdown?) && m < |s.loops|
    ensures m < |Do(s, a).loops|
    ensures Do(s, a).loops[m].phase == s.loops[m].phase && Do(s, a).loops[m].active == s.loops[m].active
  {}

  lemma TurnKept(s: System, a: Action, m: nat)
    requires Placed(s) && Enabled(s, a) && m < |s.loops| && !Turns(a, m)
    ensures m < |Do(s, a).loops|
    ensures Do(s, a).loops[m].phase == s.loops[m].phase && Do(s, a).loops[m].active == s.loops[m].active
  {
    if a.RunOp? {
      HandlerKeepsTurn(s, a.l, a.read, a.wr, m);
    } else if a.RunTask? {
      FunctorKeepsTurn(s, a.l, a.wr, m);
    } else if a.Accept? || a.DestroyServer? {
      AcceptKeepsTurn(s, a, m);
    } else if a.UserSend? || a.UserShutdown? {
      UserKeepsTurn(s, a, m);
    }
  }

  /** The reports a run takes up on loop `l`, in order. */
  ghost function Begun(s: System, acts: seq<Action>, l: nat): seq<Ready>
    requires ValidRun(s, acts)
    decreases |acts|
  {
    if acts == [] then []
    else
      var e, a := End(s, acts[..|acts| - 1]), acts[|acts| - 1];
      Begun(s, acts[..|acts| - 1], l) + if a == BeginEvent(l) then [e.loops[l].active[0]] else []
  }

  /** Some reports have been taken up, and the loop still has the rest of `ready` to handle. */
  ghost predicate Reporting(e: System, l: nat, begun: seq<Ready>, ready: seq<Ready>) {
    l < |e.loops| && e.loops[l].phase.Dispatching? && begun + e.loops[l].active == ready
  }

  /** From a poll to the functor phase, whatever else happens: the reports taken up, and those
      still to be, are those of the poll, in its order. */
  lemma {:induction false} EveryReportBegins(s: System, acts: seq<Action>, l: nat)
    requires Inv(s) && ValidRun(s, acts) && l < |s.loops| && s.loops[l].phase.Dispatching? && SwapPending(l) !in acts
    ensures Reporting(End(s, acts), l, Begun(s, acts, l), s.loops[l].active)
    decreases |acts|
  {
    if acts != [] {
      var before, a := acts[..|acts| - 1], acts[|acts| - 1];
      assert acts == before + [a];
      EveryReportBegins(s, before, l);
      RunKeeps(s, before);
      ReportingStep(End(s, before), a, l, Begun(s, before, l), s.loops[l].active);
    }
  }

  lemma ReportingStep(s: System, a: Action, l: nat, begun: seq<Ready>, ready: seq<Ready>)
    requires Inv(s) && Enabled(s, a) && Reporting(s, l, begun, ready) && a != SwapPending(l)
    ensures Reporting(Do(s, a), l, begun + if a == BeginEvent(l) then [s.loops[l].active[0]] else [], ready)
  {
    ReportStep(s, a, l);
    Begins(begun, s.loops[l].active, a == BeginEvent(l));
  }

  /** The functor phase starts only when every report has been taken up and its handler is
      done. */
  lemma NoReportIsSkipped(s: System, acts: seq<Action>, l: nat)
    requires Inv(s) && ValidRun(s, acts) && l < |s.loops| && s.loops[l].phase.Dispatching? && SwapPending(l) !in acts
    requires Enabled(End(s, acts), SwapPending(l))
    ensures Begun(s, acts, l) == s.loops[l].active && End(s, acts).loops[l].frame.NoFrame?
  {
    EveryReportBegins(s, acts, l);
    assert Begun(s, acts, l) + [] == Begun(s, acts, l);
  }

  lemma Begins(begun: seq<Ready>, active: seq<Ready>, next: bool)
    requires next ==> active != []
    ensures begun + (if next then [active[0]] else []) + (if next then active[1..] else active) == begun + active
  {}

  lemma ReportStep(s: System, a: Action, l: nat)
    requires Inv(s) && Enabled(s, a) && l < |s.loops| && s.loops[l].phase.Dispatching? && a != SwapPending(l)
    ensures l < |Do(s, a).loops| && Do(s, a).loops[l].phase.Dispatching?
    ensures Do(s, a).loops[l].active == if a == BeginEvent(l) then s.loops[l].active[1..] else s.loops[l].active
  {
    if !Turns(a, l) {
      TurnKept(s, a, l);
    }
  }

  /** The pieces of a handler stand for these bits, each at most once and in the order close,
      error, read, write. */
  ghost predicate StandsFor(ops: seq<FrameOp>, revents: Mask) {
    && (Handle(WriteCallback) in ops <==> Out in revents)
    && (Handle(ReadCallback) in ops <==> In in revents || Pri in revents)
    && (Handle(ErrorCallback) in ops <==> Err in revents)
    && (Handle(CloseCallback) in ops <==> Hup in revents && In !in revents)
    && (forall i :: 0 <= i < |ops| ==> ops[i].Handle?)
    && (forall i, j :: 0 <= i < j < |ops| ==> Turn(ops[i].callback) < Turn(ops[j].callback))
  }

  lemma DispatchStandsFor(revents: Mask)
    ensures StandsFor(Handlers(Dispatch(revents)), revents)
  {
    DispatchMeaning(revents);
    HandlersMean(Dispatch(revents));
  }

  /** What the handler started for a report is going to do, bit by bit. */
  lemma ReportMeans(s: System, l: nat)
    requires Placed(s) && Enabled(s, BeginEvent(l)) && Alive(s, s.loops[l].active[0].c)
    ensures l < |Do(s, BeginEvent(l)).loops|
    ensures var r, fr := s.loops[l].active[0], Do(s, BeginEvent(l)).loops[l].frame;
            fr.Frame? && fr.c == r.c && StandsFor(fr.ops, r.revents)
  {
    DispatchStandsFor(s.loops[l].active[0].revents);
  }

  lemma HandlersMean(calls: seq<Callback>)
    ensures forall cb :: Handle(cb) in Handlers(calls) <==> cb in calls
    ensures forall i :: 0 <= i < |calls| ==> Handlers(calls)[i] == Handle(calls[i])
  {
    var ops := Handlers(calls);
    assert forall i :: 0 <= i < |calls| ==> ops[i] == Handle(calls[i]);
    forall cb | cb in calls ensures Handle(cb) in ops {
      var i :| 0 <= i < |calls| && calls[i] == cb;
      assert ops[i] == Handle(cb);
    }
  }

  // Handlers.

  /** A step of a handler takes its first piece, puts what follows from it in its place, and
      leaves the others. */
  lemma HandlerGoesOn(s: System, l: nat, read: ReadAnswer, wr: WriteResult)
    requires Inv(s) && Enabled(s, RunOp(l, read, wr))
    ensures l < |DoRunOp(s, l, read, wr).loops|
    ensures var fr, fr' := s.loops[l].frame, DoRunOp(s, l, read, wr).loops[l].frame;
            && fr'.Frame? && fr'.c == fr.c && Continues(fr.ops, fr'.ops)
            && (fr.ops[0] !in {Handle(CloseCallback), Handle(ReadCallback)} ==> fr'.ops == fr.ops[1..])
  {
    var mv := HandlerMove(s, l, read, wr);
    HandlerMoves(s, l, read, wr);
    assert Moves(s, DoRunOp(s, l, read, wr), mv, mv.l);
    NextOpsContinue(s.loops[l].frame.ops, read);
    HandlerThread(s, l, read, wr);
    HandlerFrame(s, l, read, wr);
  }

  lemma HandlerFrame(s: System, l: nat, read: ReadAnswer, wr: WriteResult)
    requires Enabled(s, RunOp(l, read, wr))
    ensures HandlerMove(s, l, read, wr).fr == Frame(s.loops[l].frame.c, NextOps(s.loops[l].frame.ops, read))
  {}

  ghost predicate Continues(ops: seq<FrameOp>, ops': seq<FrameOp>) {
    ops != [] && |ops'| >= |ops| - 1 && ops'[|ops'| - (|ops| - 1)..] == ops[1..]
  }

  lemma Follows(ops: seq<FrameOp>, first: seq<FrameOp>)
    requires ops != []
    ensures Continues(ops, first + ops[1..])
  {}

  /** What stands in the place of the first piece. */
  function InPlace(ops: seq<FrameOp>, read: ReadAnswer): seq<FrameOp>
    requires ops != []
  {
    if ops[0] == Handle(CloseCallback) then [UserCallback, PostRemove]
    else if ops[0] == Handle(ReadCallback) && read.GotBytes? then [UserCallback]
    else if ops[0] == Handle(ReadCallback) && read.GotEof? then [Handle(CloseCallback)]
    else []
  }

  lemma NextOpsContinue(ops: seq<FrameOp>, read: ReadAnswer)
    requires ops != []
    ensures NextOps(ops, read) == InPlace(ops, read) + ops[1..]
    ensures Continues(ops, NextOps(ops, read))
  {
    assert [] + ops[1..] == ops[1..];
    Follows(ops, InPlace(ops, read));
  }

  /** A user callback, a reported error and a failed read change nothing by themselves. */
  lemma ErrorsChangeNothing(s: System, l: nat, read: ReadAnswer, wr: WriteResult)
    requires Inv(s) && Enabled(s, RunOp(l, read, wr))
    requires s.loops[l].frame.ops[0] in {UserCallback, Handle(ErrorCallback)}
             || (s.loops[l].frame.ops[0] == Handle(ReadCallback) && read.GotError?)
    ensures var s' := DoRunOp(s, l, read, wr);
            && s' == s.(loops := s'.loops)
            && l < |s'.loops| && s'.loops[l] == s.loops[l].(frame := Frame(s.loops[l].frame.c, s.loops[l].frame.ops[1..]))
  {}

  /** Bytes received are handed to the user's message callback, before anything else. */
  lemma BytesAreHandedOn(s: System, l: nat, wr: WriteResult)
    requires Inv(s) && Enabled(s, RunOp(l, GotBytes, wr)) && s.loops[l].frame.ops[0] == Handle(ReadCallback)
    ensures var s' := DoRunOp(s, l, GotBytes, wr);
            && s'.loops[l].frame == Frame(s.loops[l].frame.c, [UserCallback] + s.loops[l].frame.ops[1..])
            && s'.conns == s.conns
  {}

  /** The end of the stream closes the connection: the close comes next, and running it takes
      the connection down, with the user's down callback and the server's removal to follow. */
  lemma EndOfStreamCloses(s: System, l: nat, read: ReadAnswer, wr: WriteResult, wr': WriteResult)
    requires Inv(s) && Enabled(s, RunOp(l, GotEof, wr)) && s.loops[l].frame.ops[0] == Handle(ReadCallback)
    ensures var s1, c := DoRunOp(s, l, GotEof, wr), s.loops[l].frame.c;
            && Inv(s1) && s1.conns == s.conns
            && s1.loops[l].frame.Frame? && s1.loops[l].frame.c == c
            && s1.loops[l].frame.ops != [] && s1.loops[l].frame.ops[0] == Handle(CloseCallback)
            && Enabled(s1, RunOp(l, read, wr'))
            && Closed(DoRunOp(s1, l, read, wr'), l, c)
  {
    StepKeeps(s, RunOp(l, GotEof, wr));
    var s1 := DoRunOp(s, l, GotEof, wr);
    CloseMeans(s1, l, read, wr');
  }

  /** Down, no longer polled, and the two callbacks still to come in their order. */
  ghost predicate Closed(s: System, l: nat, c: ConnId) {
    && c in s.conns && s.conns[c].state == C.kDisconnected && s.conns[c].events == {}
    && s.conns[c].edges == [C.Up, C.Down]
    && l < |s.loops| && s.loops[l].frame.Frame? && s.loops[l].frame.c == c
    && [UserCallback, PostRemove] <= s.loops[l].frame.ops
  }

  lemma CloseMeans(s: System, l: nat, read: ReadAnswer, wr: WriteResult)
    requires Inv(s) && Enabled(s, RunOp(l, read, wr)) && s.loops[l].frame.ops[0] == Handle(CloseCallback)
    ensures Closed(DoRunOp(s, l, read, wr), l, s.loops[l].frame.c)
  {
    var c := s.loops[l].frame.c;
    CloseKeeps(s, l, read, wr);
    CloseDone(s, l, read, wr);
    assert ConnOk(s, c);
    C.DownMeans(s.conns[c], C.Close);
  }

  /** The close callback takes the connection out of the map, or sends for that. */
  lemma RemovalMeans(s: System, l: nat, read: ReadAnswer, wr: WriteResult)
    requires Inv(s) && Enabled(s, RunOp(l, read, wr)) && s.loops[l].frame.ops[0] == PostRemove
    ensures var s', c := DoRunOp(s, l, read, wr), s.loops[l].frame.c;
            && Placed(s') && c in s.conns
            && (l == 0 ==> c !in s'.connections && Destroyed(c) in Rest(s'.loops[s.conns[c].loop]))
            && (l != 0 ==> RemoveInLoop(c) in Rest(s'.loops[0]))
  {
    StepKeeps(s, RunOp(l, read, wr));
    CallbackAccount(s, l, read, wr);
    HandlerEntries(s, l, read, wr);
  }

  /** A queued callback runs as the user's callback, a user functor as user code, and
      `connectEstablished` brings the connection up, with the up callback to follow. */
  lemma FunctorMeans(s: System, l: nat, wr: WriteResult)
    requires Inv(s) && Enabled(s, RunTask(l, wr))
    ensures var f, s' := s.loops[l].batch[s.loops[l].pos], DoRunTask(s, l, wr);
            && l < |s'.loops|
            && (f.UserTask? ==> s'.loops[l].frame == UserFrame)
            && (f.Notify? ==> s'.loops[l].frame == Frame(f.c, [UserCallback]))
            && (f.Established? ==>
                  && s'.loops[l].frame == Frame(f.c, [UserCallback])
                  && f.c in s'.conns && s'.conns[f.c].state == C.kConnected && s'.conns[f.c].edges == [C.Up]
                  && s'.conns[f.c].events == {In, Pri})
  {
    var f := s.loops[l].batch[s.loops[l].pos];
    if f.Established? {
      FunctorInOrder(s, l, wr, f.c);
      RunTaskPerforms(s, l, wr, f.c);
      assert ConnOk(s, f.c);
      C.EstablishMeans(s.conns[f.c]);
    }
  }

  /** `connectDestroyed` removes the channel in every case, after the user's down callback if the
      connection was up. */
  ghost predicate Destroying(k: C.Conn, s': System, l: nat, c: ConnId) {
    && l < |s'.loops| && c in s'.conns
    && s'.loops[l].frame == Frame(c, if k.state == C.kConnected then [UserCallback, DoDetach] else [DoDetach])
    && (if k.state == C.kConnected then s'.conns[c].state == C.kDisconnected && s'.conns[c].edges == [C.Up, C.Down]
        else s'.conns[c] == k)
  }

  lemma DestroyMeans(s: System, l: nat, wr: WriteResult)
    requires Inv(s) && Enabled(s, RunTask(l, wr)) && s.loops[l].batch[s.loops[l].pos].Destroyed?
    ensures var c := s.loops[l].batch[s.loops[l].pos].c;
            c in s.conns && Destroying(s.conns[c], DoRunTask(s, l, wr), l, c)
  {
    var c := s.loops[l].batch[s.loops[l].pos].c;
    RunTaskPerforms(s, l, wr, c);
    assert ConnOk(s, c);
    if s.conns[c].state == C.kConnected {
      C.DownMeans(s.conns[c], C.Destroy);
      assert [UserCallback] + [DoDetach] == [UserCallback, DoDetach];
    } else {
      assert [] + [DoDetach] == [DoDetach];
    }
  }

  /** The server's destructor does the same at once for a connection of the main loop. */
  lemma DestroyServerMeans(s: System, c: ConnId)
    requires Inv(s) && Enabled(s, DestroyServer(c)) && s.conns[c].loop == 0
    ensures Destroying(s.conns[c], Do(s, DestroyServer(c)), 0, c)
  {
    DestroysAtOnce(s, c);
    assert ConnOk(s, c);
    DestroyDoes(s.conns[c]);
  }

  lemma DestroyDoes(k: C.Conn)
    requires C.Coherent(k) && C.Enabled(k, C.Destroy)
    ensures var d := C.Apply(k, C.Destroy).conn;
            if k.state == C.kConnected then d.state == C.kDisconnected && d.edges == [C.Up, C.Down] else d == k
  {
    if k.state == C.kConnected {
      C.DownMeans(k, C.Destroy);
    }
  }

  lemma DestroysAtOnce(s: System, c: ConnId)
    requires Placed(s) && Enabled(s, DestroyServer(c)) && s.conns[c].loop == 0
    ensures var s' := Do(s, DestroyServer(c));
            && |s'.loops| > 0 && c in s'.conns && s'.conns[c] == C.Apply(s.conns[c], C.Destroy).conn
            && s'.loops[0].frame == Frame(c, if s.conns[c].state == C.kConnected then [UserCallback, DoDetach] else [DoDetach])
  {
    assert [UserCallback] + [DoDetach] == [UserCallback, DoDetach] && [] + [DoDetach] == [DoDetach];
  }

  /** Map and kernel set have nothing under the descriptor of `c`. */
  ghost predicate NoTrace(s: System, k: C.Conn) {
    && k.loop < |s.pollers|
    && k.fd !in s.pollers[k.loop].channels && k.fd !in s.pollers[k.loop].kernel
  }

  lemma TraceGone(p: Poller<ConnId>, t: map<ConnId, Chan>, c: ConnId, k: C.Conn)
    requires Consistent(p, t) && c in t && t[c] == k.View() && Free(p, c, k.fd)
    ensures var q := C.PollerAfter(p, c, k, C.Apply(k, C.Detach)); k.fd !in q.channels && k.fd !in q.kernel
  {
    RemoveKeeps(p, t, c);
  }

  lemma RemovalLeavesNoTrace(s: System, s': System, c: ConnId)
    requires Owned(s) && OneDone(s, s', c, C.Detach) && Alive(s, c)
    ensures NoTrace(s', s.conns[c])
  {
    var l := s.conns[c].loop;
    LiveIsFree(s, c);
    assert Consistent(s.pollers[l], Table(s.conns, l));
    TraceGone(s.pollers[l], Table(s.conns, l), c, s.conns[c]);
  }

  /** `channel_->remove()` leaves nothing of the channel. */
  lemma DetachMeans(s: System, l: nat, read: ReadAnswer, wr: WriteResult)
    requires Owned(s) && Enabled(s, RunOp(l, read, wr)) && s.loops[l].frame.ops[0] == DoDetach
    ensures s.loops[l].frame.c in s.conns && NoTrace(DoRunOp(s, l, read, wr), s.conns[s.loops[l].frame.c])
  {
    assert HoldsOn(s.loops[l], s.loops[l].frame.c);
    DetachDone(s, l, read, wr);
    RemovalLeavesNoTrace(s, DoRunOp(s, l, read, wr), s.loops[l].frame.c);
  }

  /** A handler or functor that has nothing left to do leaves the loop to the next. */
  lemma FrameEnds(s: System, l: nat)
    requires Inv(s) && Enabled(s, EndFrame(l))
    ensures var s' := Do(s, EndFrame(l));
            l < |s'.loops| && s'.loops[l] == s.loops[l].(frame := NoFrame) && s' == s.(loops := s'.loops)
  {}

  // Batches.

  /** Loop `l` is in the functor phase of `batch` and has run `ran` of it. */
  ghost predicate Running(e: System, l: nat, ran: seq<Task>, batch: seq<Task>) {
    && l < |e.loops| && e.loops[l].phase.Calling? && e.loops[l].batch == batch
    && e.loops[l].pos <= |batch| && ran == batch[..e.loops[l].pos]
  }

  /** The functor phase runs its batch in order, whatever is queued meanwhile. */
  lemma {:induction false} BatchIsRun(s: System, acts: seq<Action>, l: nat)
    requires Inv(s) && ValidRun(s, acts) && l < |s.loops| && s.loops[l].phase.Calling? && s.loops[l].pos == 0
    requires EndBatch(l) !in acts
    ensures Running(End(s, acts), l, Ran(s, acts, l), s.loops[l].batch)
    decreases |acts|
  {
    if acts != [] {
      var before, a := acts[..|acts| - 1], acts[|acts| - 1];
      assert acts == before + [a];
      BatchIsRun(s, before, l);
      RunKeeps(s, before);
      RunningStep(End(s, before), a, l, Ran(s, before, l), s.loops[l].batch);
    }
  }

  lemma RunningStep(s: System, a: Action, l: nat, ran: seq<Task>, batch: seq<Task>)
    requires Inv(s) && Enabled(s, a) && Running(s, l, ran, batch) && a != EndBatch(l)
    ensures Running(Do(s, a), l, ran + RanNow(s, a, l), batch)
  {
    if !Turns(a, l) {
      TurnKept(s, a, l);
      BatchStep(s, a, l);
      RunningOn(batch, s.loops[l].pos, a.RunTask? && a.l == l);
    }
  }

  lemma RunningOn(batch: seq<Task>, pos: nat, next: bool)
    requires pos <= |batch| && (next ==> pos < |batch|)
    ensures batch[..pos] + (if next then [batch[pos]] else []) == batch[..if next then pos + 1 else pos]
  {}

  lemma BatchStep(s: System, a: Action, l: nat)
    requires Inv(s) && Enabled(s, a) && l < |s.loops| && !Turns(a, l)
    ensures l < |Do(s, a).loops| && Do(s, a).loops[l].batch == s.loops[l].batch
    ensures Do(s, a).loops[l].pos == s.loops[l].pos + if a.RunTask? && a.l == l then 1 else 0
  {
    if a.SwapPending? || a.EndBatch? {
      assert a.l != l;
    } else {
      StepMoves(s, a);
      PopIsRun(s, a);
      assert Moves(s, Do(s, a), MoveOf(s, a), l);
    }
  }

  /** The phase starts with everything that was pending. */
  lemma SwapTakesAll(s: System, l: nat)
    requires Inv(s) && Enabled(s, SwapPending(l))
    ensures var lp := Do(s, SwapPending(l)).loops[l];
            && lp.phase.Calling? && lp.batch == s.loops[l].pending && lp.pos == 0 && lp.pending == []
            && lp.frame.NoFrame?
  {}

  /** And it ends only when all of that has run, with the loop ready to poll again. */
  lemma BatchIsExact(s: System, acts: seq<Action>, l: nat)
    requires Inv(s) && ValidRun(s, acts) && l < |s.loops| && s.loops[l].phase.Calling? && s.loops[l].pos == 0
    requires EndBatch(l) !in acts && Enabled(End(s, acts), EndBatch(l))
    ensures Ran(s, acts, l) == s.loops[l].batch
  {
    BatchIsRun(s, acts, l);
    assert s.loops[l].batch[..|s.loops[l].batch|] == s.loops[l].batch;
  }

  lemma BatchEnds(s: System, l: nat)
    requires Inv(s) && Enabled(s, EndBatch(l))
    ensures var lp := Do(s, EndBatch(l)).loops[l];
            lp.phase.Idle? && lp.batch == [] && lp.pos == 0 && lp.frame.NoFrame? && lp.pending == s.loops[l].pending
  {}

  // From the kernel to the connection.

  /** The connection is open and its channel registered. */
  ghost predicate Open(s: System, c: ConnId) {
    && c in s.conns
    && (s.conns[c].state == C.kConnected || (s.conns[c].state == C.kDisconnecting && s.conns[c].index == KAdded))
  }

  /** An open connection is polled for readable and priority data, and for writability exactly
      while output is pending. */
  lemma OpenIsPolled(s: System, c: ConnId)
    requires Owned(s) && Open(s, c)
    ensures var k := s.conns[c];
            && k.loop < |s.pollers| && s.pollers[k.loop].Maps(k.fd, c) && k.fd in s.pollers[k.loop].kernel
            && In in s.pollers[k.loop].kernel[k.fd] && Pri in s.pollers[k.loop].kernel[k.fd]
            && (Out in s.pollers[k.loop].kernel[k.fd] <==> k.out != [])
            && k.index == KAdded && Alive(s, c)
  {
    var k := s.conns[c];
    assert ConnOk(s, c);
    C.OpenIsRead(k);
    assert Consistent(s.pollers[k.loop], Table(s.conns, k.loop));
    assert IndexOk(s.pollers[k.loop], c, Table(s.conns, k.loop)[c]);
    RegisteredIsAlive(s, c);
  }

  /** In every timely run, so in every run of a server that is not destroyed, an open connection
      asks the kernel for readable and priority data. */
  lemma OpenIsAlwaysPolled(s: System, acts: seq<Action>, c: ConnId)
    requires Initial(s) && ValidRun(s, acts) && TimelyRun(s, acts) && Open(End(s, acts), c)
    ensures var e := End(s, acts);
            var k := e.conns[c];
            && In in k.events && Pri in k.events
            && k.loop < |e.pollers| && k.fd in e.pollers[k.loop].kernel
            && In in e.pollers[k.loop].kernel[k.fd] && Pri in e.pollers[k.loop].kernel[k.fd]
  {
    ReachableOwned(s, acts);
    OpenIsPolled(End(s, acts), c);
    assert ConnOk(End(s, acts), c);
    C.OpenIsRead(End(s, acts).conns[c]);
  }

  /** The loop of an open connection is about to poll. */
  ghost predicate AboutToPoll(s: System, c: ConnId) {
    && Open(s, c) && s.conns[c].loop < |s.loops|
    && s.loops[s.conns[c].loop].phase.Idle? && s.loops[s.conns[c].loop].frame.NoFrame?
  }

  /** The kernel can report these bits for an open connection at the next poll of its loop. */
  lemma CanBeReported(s: System, c: ConnId, revents: Mask)
    requires Owned(s) && Open(s, c) && QuietHangup(revents)
    requires revents <= {In, Pri, Err, Hup} + if s.conns[c].out != [] then {Out} else {}
    requires AboutToPoll(s, c)
    ensures Enabled(s, Poll(s.conns[c].loop, [Ready(c, revents)]))
  {
    OpenIsPolled(s, c);
  }

  /** The state after the loop has polled one report and started its handler. */
  ghost predicate Handling(s: System, s2: System, c: ConnId, revents: Mask) {
    && Placed(s) && c in s.conns
    && var l := s.conns[c].loop;
       && Enabled(s, Poll(l, [Ready(c, revents)]))
       && var s1 := Do(s, Poll(l, [Ready(c, revents)]));
          && |s1.pollers| == |s1.loops| && Enabled(s1, BeginEvent(l)) && s2 == Do(s1, BeginEvent(l))
          && s2.conns == s.conns && l < |s2.loops|
          && s2.loops[l].frame == Frame(c, Handlers(Dispatch(revents)))
  }

  lemma ReportIsHandled(s: System, c: ConnId, revents: Mask) returns (s2: System)
    requires Owned(s) && Open(s, c) && QuietHangup(revents)
    requires revents <= {In, Pri, Err, Hup} + if s.conns[c].out != [] then {Out} else {}
    requires AboutToPoll(s, c)
    ensures Handling(s, s2, c, revents) && Inv(s2) && c in s2.conns
    ensures s.conns[c].loop < |s2.loops| && s2.loops[s.conns[c].loop].frame == Frame(c, Handlers(Dispatch(revents)))
  {
    var l := s.conns[c].loop;
    CanBeReported(s, c, revents);
    OpenIsPolled(s, c);
    var a := Poll(l, [Ready(c, revents)]);
    var s1 := Do(s, a);
    StepKeeps(s, a);
    StillAlive(s, l, [Ready(c, revents)], c);
    s2 := Do(s1, BeginEvent(l));
    StepKeeps(s1, BeginEvent(l));
  }

  lemma StillAlive(s: System, l: nat, ready: seq<Ready>, c: ConnId)
    requires Placed(s) && Enabled(s, Poll(l, ready)) && Alive(s, c)
    ensures Alive(Do(s, Poll(l, ready)), c)
  {
    var s' := Do(s, Poll(l, ready));
    if c !in s.connections && c !in s.held {
      var m :| 0 <= m < |s.loops| && HoldsOn(s.loops[m], c);
      assert HoldsOn(s'.loops[m], c);
    }
  }

  lemma ReadHandlers()
    ensures Handlers(Dispatch({In})) == [Handle(ReadCallback)]
  {
    assert Dispatch({In}) == [ReadCallback];
  }

  lemma WriteHandlers()
    ensures Handlers(Dispatch({Out})) == [Handle(WriteCallback)]
  {
    assert Dispatch({Out}) == [WriteCallback];
  }

  /** The loop runs the read handler for `c`, and what it receives goes to the user. */
  ghost predicate Reads(s: System, l: nat, c: ConnId, wr: WriteResult) {
    && Enabled(s, RunOp(l, GotBytes, wr)) && s.loops[l].frame.c == c
    && l < |DoRunOp(s, l, GotBytes, wr).loops|
    && DoRunOp(s, l, GotBytes, wr).loops[l].frame == Frame(c, [UserCallback])
  }

  /** Readable data is read: the kernel can report it for any open connection whose loop is
      about to poll, the loop then runs the read handler, and what it receives goes to the
      user's message callback. */
  lemma ReadableIsRead(s: System, c: ConnId, wr: WriteResult) returns (s2: System)
    requires Owned(s) && AboutToPoll(s, c)
    ensures Handling(s, s2, c, {In}) && Reads(s2, s.conns[c].loop, c, wr)
  {
    s2 := ReportIsHandled(s, c, {In});
    ReadHandlers();
    StartsReading(s2, s.conns[c].loop, c, wr);
  }

  lemma StartsReading(s: System, l: nat, c: ConnId, wr: WriteResult)
    requires Inv(s) && l < |s.loops| && c in s.conns && s.loops[l].frame == Frame(c, [Handle(ReadCallback)])
    ensures Reads(s, l, c, wr)
  {
    BytesAreHandedOn(s, l, wr);
    assert [UserCallback] + [Handle(ReadCallback)][1..] == [UserCallback];
  }

  /** The read handler finds the end of the stream, and its next piece closes the connection. */
  ghost predicate EndsStream(s: System, l: nat, c: ConnId, read: ReadAnswer, wr: WriteResult, wr': WriteResult) {
    && Enabled(s, RunOp(l, GotEof, wr))
    && var s1 := DoRunOp(s, l, GotEof, wr);
       Enabled(s1, RunOp(l, read, wr')) && Closed(DoRunOp(s1, l, read, wr'), l, c)
  }

  /** The end of the stream ends the connection: reported as readable, it takes any open
      connection down. */
  lemma EndOfStreamIsSeen(s: System, c: ConnId, read: ReadAnswer, wr: WriteResult, wr': WriteResult) returns (s2: System)
    requires Owned(s) && AboutToPoll(s, c)
    ensures Handling(s, s2, c, {In}) && EndsStream(s2, s.conns[c].loop, c, read, wr, wr')
  {
    s2 := ReportIsHandled(s, c, {In});
    ReadHandlers();
    FindsEnd(s2, s.conns[c].loop, c, read, wr, wr');
  }

  lemma FindsEnd(s: System, l: nat, c: ConnId, read: ReadAnswer, wr: WriteResult, wr': WriteResult)
    requires Inv(s) && l < |s.loops| && c in s.conns && s.loops[l].frame == Frame(c, [Handle(ReadCallback)])
    ensures EndsStream(s, l, c, read, wr, wr')
  {
    EndOfStreamCloses(s, l, read, wr, wr');
  }

  /** What a drain of everything that is pending leaves. */
  ghost predicate AllWritten(k: C.Conn) {
    k.out == [] && k.wire == C.Accepted(k.offered) && Out !in k.events && (k.state == C.kDisconnecting ==> k.shutWr)
  }

  lemma DrainWrites(k: C.Conn)
    requires C.Coherent(k) && (k.state == C.kConnected || k.state == C.kDisconnecting) && k.out != []
    ensures C.Answers(k, |k.out|, Wrote(|k.out|)) && AllWritten(C.Apply(k, C.WriteReady(Wrote(|k.out|))).conn)
  {
    var n := C.WriteMoves(k, Wrote(|k.out|));
    C.WriteKeepsStream(k, Wrote(|k.out|));
    assert k.out[..|k.out|] == k.out;
    var d := C.HandleWrite(k, Wrote(|k.out|)).conn;
    assert d.wire + [] == d.wire;
  }

  /** The write handler runs, and leaves nothing unwritten. */
  ghost predicate Drains(s: System, l: nat, c: ConnId, read: ReadAnswer, wr: WriteResult) {
    && Enabled(s, RunOp(l, read, wr))
    && c in DoRunOp(s, l, read, wr).conns && AllWritten(DoRunOp(s, l, read, wr).conns[c])
  }

  /** Pending output is written: writability can be reported for any open connection that has
      some, the loop then runs the write handler, and when the socket takes all of it every
      accepted byte is on the wire, and a half-close that was waiting is done. */
  lemma PendingIsWritten(s: System, c: ConnId, read: ReadAnswer) returns (s2: System)
    requires Owned(s) && AboutToPoll(s, c) && s.conns[c].out != []
    ensures Handling(s, s2, c, {Out}) && Drains(s2, s.conns[c].loop, c, read, Wrote(|s.conns[c].out|))
  {
    var l, wr := s.conns[c].loop, Wrote(|s.conns[c].out|);
    assert ConnOk(s, c);
    DrainWrites(s.conns[c]);
    s2 := ReportIsHandled(s, c, {Out});
    WriteHandlers();
    WriteDone(s2, l, read, wr);
  }

  // No loop is ever stuck.

  /** All that can hold a loop up: a functor bound to a raw `this` whose connection is gone. */
  ghost predicate Blocked(s: System, l: nat) {
    && l < |s.loops| && s.loops[l].phase.Calling? && s.loops[l].frame.NoFrame?
    && s.loops[l].pos < |s.loops[l].batch|
    && var f := s.loops[l].batch[s.loops[l].pos];
       (f.SendTask? || f.ShutdownTask?) && !Alive(s, f.c)
  }

  const REFUSED: WriteResult := WriteFailed(EPIPE)

  /** In every reachable state each loop can take a step of its own. */
  lemma LoopGoesOn(s: System, l: nat) returns (a: Action)
    requires Inv(s) && l < |s.loops| && !Blocked(s, l)
    ensures Enabled(s, a) && ThreadOf(a) == OnLoop(l)
  {
    var lp := s.loops[l];
    assert LoopOk(s.conns, l, lp);
    if lp.frame.Frame? {
      a := if lp.frame.ops == [] then EndFrame(l) else RunOp(l, GotError, REFUSED);
    } else if lp.frame.UserFrame? {
      a := EndFrame(l);
    } else {
      match lp.phase
      case Idle => a := Poll(l, []);
      case Dispatching => a := if lp.active == [] then SwapPending(l) else BeginEvent(l);
      case Calling =>
        if lp.pos == |lp.batch| {
          a := EndBatch(l);
        } else {
          a := RunTask(l, REFUSED);
          FunctorCanRun(s, l);
        }
    }
  }

  lemma FunctorCanRun(s: System, l: nat)
    requires Inv(s) && l < |s.loops| && !Blocked(s, l) && s.loops[l].phase.Calling? && s.loops[l].frame.NoFrame?
    requires s.loops[l].pos < |s.loops[l].batch|
    ensures Enabled(s, RunTask(l, REFUSED))
  {
    RestPopped(s.loops[l]);
    assert LoopOk(s.conns, l, s.loops[l]) && TaskOk(s.conns, l, s.loops[l].batch[s.loops[l].pos]);
  }

  /** User code may use any connection it has a reference to, from outside the loops or from a
      callback on any of them. */
  lemma UserMayAsk(s: System, t: Thread, c: ConnId, data: seq<Byte>)
    requires Inv(s) && c in s.conns && Alive(s, c)
    requires t.Outside? || (t.l < |s.loops| && s.loops[t.l].frame.Frame? && s.loops[t.l].frame.ops != []
                            && s.loops[t.l].frame.ops[0] == UserCallback)
             || (t.l < |s.loops| && s.loops[t.l].frame.UserFrame?)
    ensures Enabled(s, UserSend(t, c, data, REFUSED)) && Enabled(s, UserShutdown(t, c))
    ensures !s.conns[c].shutWr ==> Enabled(s, UserSend(t, c, data, Wrote(|data|)))
    ensures forall l :: 0 <= l < |s.loops| ==> Enabled(s, UserQueue(t, l))
  {}

  // What the server gave the connection.

  /** Step `i` of the run accepted `c`, with the configuration it has. */
  ghost predicate AcceptedAt(s: System, acts: seq<Action>, c: ConnId, i: nat, k: C.Conn) {
    i < |acts| && ValidRun(s, acts[..i]) && End(s, acts[..i]).nextId == c && Configured(k, acts[i])
  }

  /** Each connection has the descriptor, the mark and the callbacks it was accepted with. */
  lemma {:induction false} AsAccepted(s: System, acts: seq<Action>, c: ConnId) returns (i: nat)
    requires Initial(s) && ValidRun(s, acts) && c in End(s, acts).conns
    ensures AcceptedAt(s, acts, c, i, End(s, acts).conns[c])
    decreases |acts|
  {
    var before, a := acts[..|acts| - 1], acts[|acts| - 1];
    if c in End(s, before).conns {
      i := AsAccepted(s, before, c);
      AcceptedBefore(s, acts, c, i);
    } else {
      i := |acts| - 1;
      AcceptedLast(s, acts, c);
    }
  }

  lemma AcceptedLast(s: System, acts: seq<Action>, c: ConnId)
    requires Initial(s) && ValidRun(s, acts) && acts != []
    requires c in End(s, acts).conns && c !in End(s, acts[..|acts| - 1]).conns
    ensures AcceptedAt(s, acts, c, |acts| - 1, End(s, acts).conns[c])
  {
    ReachableInv(s, acts[..|acts| - 1]);
    NewcomerConfigured(End(s, acts[..|acts| - 1]), acts[|acts| - 1], c);
  }

  lemma EndKeepsConfig(s: System, acts: seq<Action>, c: ConnId)
    requires Initial(s) && ValidRun(s, acts) && acts != [] && c in End(s, acts[..|acts| - 1]).conns
    ensures c in End(s, acts).conns && SameConfig(End(s, acts[..|acts| - 1]).conns[c], End(s, acts).conns[c])
  {
    ReachableInv(s, acts[..|acts| - 1]);
    ConfigKept(End(s, acts[..|acts| - 1]), acts[|acts| - 1], c);
  }

  predicate SameConfig(k: C.Conn, d: C.Conn) {
    (d.fd, d.mark, d.hasWriteComplete, d.hasHighWater) == (k.fd, k.mark, k.hasWriteComplete, k.hasHighWater)
  }

  lemma AcceptedBefore(s: System, acts: seq<Action>, c: ConnId, i: nat)
    requires Initial(s) && ValidRun(s, acts) && acts != [] && c in End(s, acts[..|acts| - 1]).conns
    requires AcceptedAt(s, acts[..|acts| - 1], c, i, End(s, acts[..|acts| - 1]).conns[c])
    ensures c in End(s, acts).conns && AcceptedAt(s, acts, c, i, End(s, acts).conns[c])
  {
    EndKeepsConfig(s, acts, c);
    StillAccepted(s, acts[..|acts| - 1], acts, c, i, End(s, acts[..|acts| - 1]).conns[c], End(s, acts).conns[c]);
  }

  lemma StillAccepted(s: System, before: seq<Action>, acts: seq<Action>, c: ConnId, i: nat, k: C.Conn, d: C.Conn)
    requires AcceptedAt(s, before, c, i, k) && before <= acts && SameConfig(k, d)
    ensures AcceptedAt(s, acts, c, i, d)
  {
    assert acts[..i] == before[..i];
  }

  lemma NewcomerConfigured(e: System, a: Action, c: ConnId)
    requires Inv(e) && Enabled(e, a) && c !in e.conns && c in Do(e, a).conns
    ensures a.Accept? && c == e.nextId && Configured(Do(e, a).conns[c], a)
  {
    OnlyAcceptAdds(e, a, c);
    var k, ops := Born(e, a);
    BornConfig(k, ops);
  }

  predicate Configured(k: C.Conn, a: Action) {
    a.Accept? && k.fd == a.fd && k.mark == a.mark && k.hasWriteComplete == a.wc && k.hasHighWater == a.hw
  }

  /** A reference user code holds keeps the connection alive until it is dropped. */
  lemma {:induction false} HeldStaysAlive(s: System, acts: seq<Action>, c: ConnId)
    requires Inv(s) && ValidRun(s, acts) && Drop(c) !in acts && (c in s.held || Hold(c) in acts)
    ensures Alive(End(s, acts), c)
    decreases |acts|
  {
    HeldStays(s, acts, c);
  }

  lemma {:induction false} HeldStays(s: System, acts: seq<Action>, c: ConnId)
    requires Inv(s) && ValidRun(s, acts) && Drop(c) !in acts && (c in s.held || Hold(c) in acts)
    ensures c in End(s, acts).held
    decreases |acts|
  {
    if acts != [] {
      var before, a := acts[..|acts| - 1], acts[|acts| - 1];
      assert acts == before + [a];
      RunKeeps(s, before);
      if c in s.held || Hold(c) in before {
        HeldStays(s, before, c);
      }
      HeldStep(End(s, before), a, c);
    }
  }

  lemma HeldStep(s: System, a: Action, c: ConnId)
    requires Inv(s) && Enabled(s, a) && a != Drop(c) && (c in s.held || a == Hold(c))
    ensures c in Do(s, a).held
  {
    if a.RunOp? {
      HandlerHeld(s, a.l, a.read, a.wr);
    } else if a.RunTask? {
      FunctorHeld(s, a.l, a.wr);
    }
  }

  lemma HandlerHeld(s: System, l: nat, read: ReadAnswer, wr: WriteResult)
    requires Enabled(s, RunOp(l, read, wr))
    ensures DoRunOp(s, l, read, wr).held == s.held
  {}

  lemma FunctorHeld(s: System, l: nat, wr: WriteResult)
    requires Enabled(s, RunTask(l, wr))
    ensures DoRunTask(s, l, wr).held == s.held
  {}

  lemma BornConfig(k: C.Conn, ops: seq<C.Op>)
    requires C.Fresh(k) && C.ValidRun(k, ops) && (ops == [] || ops == [C.Establish])
    ensures var d := C.After(k, ops);
            SameConfig(k, d)
  {
    if ops != [] {
      OneOp(k, C.Establish);
    }
  }

  lemma ConfigKept(s: System, a: Action, c: ConnId)
    requires Inv(s) && Enabled(s, a) && c in s.conns
    ensures c in Do(s, a).conns
    ensures SameConfig(s.conns[c], Do(s, a).conns[c])
  {
    StepPerforms(s, a, c);
    if OpsOn(s, a, c) != [] {
      assert ConnOk(s, c);
      OpsInOrder(s, a, c);
      AtMostTwo(s, a, c);
      ConfigPerformed(s.conns[c], OpsOn(s, a, c), Do(s, a).conns[c]);
    }
  }

  lemma ConfigPerformed(k: C.Conn, ops: seq<C.Op>, d: C.Conn)
    requires C.Coherent(k) && Performed(k, ops, d) && ops != [] && C.Enabled(k, ops[0])
    requires |ops| == 1 || ops == [C.ShutdownFlag, C.ShutdownRun]
    ensures SameConfig(k, d)
  {
    C.OpMovesForward(k, ops[0]);
  }
}
