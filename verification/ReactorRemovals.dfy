/** How every connection gets removed: as long as it is not down it has exactly one removal
    due, and one that is down leaves the server's map. No assumption about runs. */
module ReactorRemovals {
  import opened Registration
  import opened ByteBuffer
  import opened Reactor
  import opened ReactorInvariant
  import opened ReactorMoves
  import opened ReactorSteps
  import C = Connection

  /** The removals due for `c` that do not depend on a close: the server's entry, the queued
      destructions, and the one its loop is at. */
  function Due(s: System, c: ConnId): nat
    requires Placed(s) && c in s.conns
  {
    Going(s.loops[s.conns[c].loop], c) + if c in s.connections then 1 else 0
  }

  /** After a close: the removal from `connections_` is on its way. */
  ghost predicate Removing(s: System, c: ConnId)
    requires Placed(s) && c in s.conns
  {
    RemoveInLoop(c) in Rest(s.loops[0]) || Closing(s.loops[s.conns[c].loop], c)
  }

  /** A connection that was never closed has one removal due until its channel is removed,
      and none afterwards; one that is down is on its way out of the map. */
  ghost predicate Account(s: System, c: ConnId)
    requires Placed(s) && c in s.conns
  {
    match s.conns[c].state
    case kConnecting => Due(s, c) == 1
    case kConnected => Due(s, c) == 1
    case kDisconnecting => Due(s, c) <= 1 && (s.conns[c].index == KNew ==> Due(s, c) == 0)
    case kDisconnected => c in s.connections ==> Removing(s, c)
  }

  ghost predicate Accounted(s: System) {
    Placed(s) && forall c :: c in s.conns ==> Account(s, c)
  }

  // One step, for a connection that exists.

  lemma HandlerEntries(s: System, l: nat, read: ReadAnswer, wr: WriteResult)
    requires Enabled(s, RunOp(l, read, wr))
    ensures DoRunOp(s, l, read, wr).connections ==
            if s.loops[l].frame.ops[0] == PostRemove && l == 0 then s.connections - {s.loops[l].frame.c}
            else s.connections
  {}

  lemma FunctorEntries(s: System, l: nat, wr: WriteResult)
    requires Enabled(s, RunTask(l, wr))
    ensures var f := s.loops[l].batch[s.loops[l].pos];
            DoRunTask(s, l, wr).connections == if f.RemoveInLoop? then s.connections - {f.c} else s.connections
  {}

  lemma OutsideEntries(s: System, a: Action)
    requires Placed(s) && Enabled(s, a) && !a.RunOp? && !a.RunTask? && !a.Accept? && !a.DestroyServer?
    ensures Do(s, a).connections == s.connections
  {}

  lemma MainEntries(s: System, a: Action)
    requires Placed(s) && Enabled(s, a) && (a.Accept? || a.DestroyServer?)
    ensures Do(s, a).connections == if a.Accept? then s.connections + {s.nextId} else s.connections - {a.c}
  {}

  lemma EntriesKept(s: System, a: Action, c: ConnId)
    requires Inv(s) && Enabled(s, a) && c in s.conns && !HandsOver(s, a, c)
    ensures c in Do(s, a).connections <==> c in s.connections
  {
    assert c < s.nextId;
    if a.RunOp? {
      HandlerEntries(s, a.l, a.read, a.wr);
    } else if a.RunTask? {
      FunctorEntries(s, a.l, a.wr);
    } else if a.Accept? || a.DestroyServer? {
      MainEntries(s, a);
    } else {
      OutsideEntries(s, a);
    }
  }

  /** Nothing is handed over: the same removals are due, and on their way. */
  lemma DueKept(s: System, a: Action, c: ConnId)
    requires Inv(s) && Enabled(s, a) && c in s.conns && !HandsOver(s, a, c)
    requires Placed(Do(s, a))
    ensures c in Do(s, a).conns && Due(Do(s, a), c) == Due(s, c)
    ensures Removing(s, c) ==> Removing(Do(s, a), c)
  {
    StepSmooth(s, a, c);
    EntriesKept(s, a, c);
    PlaceKept(s, a, c);
    SmoothDue(s, Do(s, a), c);
  }

  lemma SmoothDue(s: System, s': System, c: ConnId)
    requires Placed(s) && Placed(s') && AllSmooth(s, s', c) && c in s.conns && c in s'.conns
    requires s'.conns[c].loop == s.conns[c].loop && (c in s'.connections <==> c in s.connections)
    ensures Due(s', c) == Due(s, c)
    ensures Removing(s, c) ==> Removing(s', c)
  {
    var l := s.conns[c].loop;
    assert Smooth(s.loops[l], s'.loops[l], c) && Smooth(s.loops[0], s'.loops[0], c);
  }

  lemma GentleAccount(s: System, a: Action, c: ConnId)
    requires Inv(s) && Enabled(s, a) && c in s.conns && !HandsOver(s, a, c) && Account(s, c)
    requires Placed(Do(s, a)) && forall op :: op in OpsOn(s, a, c) ==> C.IsTraffic(op)
    ensures c in Do(s, a).conns && Account(Do(s, a), c)
  {
    DueKept(s, a, c);
    EntriesKept(s, a, c);
    TrafficOps(s, a, c);
    assert ConnOk(s, c);
    AccountCarries(s, Do(s, a), c);
  }

  lemma AccountCarries(s: System, s': System, c: ConnId)
    requires Placed(s) && Placed(s') && c in s.conns && c in s'.conns && Account(s, c)
    requires C.Gentle(s.conns[c], s'.conns[c]) && Due(s', c) == Due(s, c)
    requires (c in s'.connections <==> c in s.connections) && (Removing(s, c) ==> Removing(s', c))
    requires C.Coherent(s.conns[c])
    ensures Account(s', c)
  {}

  /** `connectEstablished`, and `connectDestroyed` up to the removal. */
  lemma FunctorAccount(s: System, l: nat, wr: WriteResult, c: ConnId)
    requires Inv(s) && Enabled(s, RunTask(l, wr)) && c in s.conns && Account(s, c)
    requires s.loops[l].batch[s.loops[l].pos] == Established(c) || s.loops[l].batch[s.loops[l].pos] == Destroyed(c)
    requires Placed(DoRunTask(s, l, wr))
    ensures c in DoRunTask(s, l, wr).conns && Account(DoRunTask(s, l, wr), c)
  {
    var f := s.loops[l].batch[s.loops[l].pos];
    DueKept(s, RunTask(l, wr), c);
    FunctorInOrder(s, l, wr, c);
    RunTaskPerforms(s, l, wr, c);
    if f.Destroyed? {
      RestPopped(s.loops[l]);
      assert LoopOk(s.conns, l, s.loops[l]) && TaskOk(s.conns, l, f);
      assert multiset(Rest(s.loops[l]))[f] > 0;
    }
  }

  /** `handleClose`: the close callback comes next. */
  lemma CloseAccount(s: System, l: nat, read: ReadAnswer, wr: WriteResult)
    requires Inv(s) && Enabled(s, RunOp(l, read, wr)) && s.loops[l].frame.ops[0] == Handle(CloseCallback)
    requires Placed(DoRunOp(s, l, read, wr))
    ensures var s', c := DoRunOp(s, l, read, wr), s.loops[l].frame.c; c in s'.conns && Account(s', c)
  {
    var s', c := DoRunOp(s, l, read, wr), s.loops[l].frame.c;
    assert LoopOk(s.conns, l, s.loops[l]);
    CloseDone(s, l, read, wr);
    assert s'.loops[l].frame.ops[1] == PostRemove;
    assert Closing(s'.loops[l], c);
  }

  // The hand-overs.

  /** The close callback, on the main loop or through its queue. */
  lemma CallbackAccount(s: System, l: nat, read: ReadAnswer, wr: WriteResult)
    requires Inv(s) && Enabled(s, RunOp(l, read, wr)) && s.loops[l].frame.ops[0] == PostRemove
    requires Placed(DoRunOp(s, l, read, wr))
    ensures var s', c := DoRunOp(s, l, read, wr), s.loops[l].frame.c;
            && c in s.conns && s'.conns == s.conns && s.conns[c].state == C.kDisconnected && Account(s', c)
            && (l == 0 ==> Destroyed(c) in Rest(s'.loops[s.conns[c].loop]))
            && (l != 0 ==> RemoveInLoop(c) in Rest(s'.loops[0]))
  {
    var s', c := DoRunOp(s, l, read, wr), s.loops[l].frame.c;
    assert LoopOk(s.conns, l, s.loops[l]);
    assert PostRemove in s.loops[l].frame.ops;
    HandlerMoves(s, l, read, wr);
    NowQueued(s, s', HandlerMove(s, l, read, wr), if l == 0 then Destroyed(c) else RemoveInLoop(c));
  }

  /** `channel_->remove()`. */
  lemma DetachAccount(s: System, l: nat, read: ReadAnswer, wr: WriteResult)
    requires Inv(s) && Enabled(s, RunOp(l, read, wr)) && s.loops[l].frame.ops[0] == DoDetach
    requires s.loops[l].frame.c in s.conns && Account(s, s.loops[l].frame.c)
    requires Placed(DoRunOp(s, l, read, wr))
    ensures var s', c := DoRunOp(s, l, read, wr), s.loops[l].frame.c;
            && c in s'.conns && Account(s', c) && s'.conns[c].index == KNew
  {
    DetachRuns(s, l, read, wr);
    DetachLoops(s, l, read, wr);
    DetachedAccount(s, DoRunOp(s, l, read, wr), s.loops[l].frame.c);
  }

  lemma DetachRuns(s: System, l: nat, read: ReadAnswer, wr: WriteResult)
    requires Inv(s) && Enabled(s, RunOp(l, read, wr)) && s.loops[l].frame.ops[0] == DoDetach
    ensures var s', c := DoRunOp(s, l, read, wr), s.loops[l].frame.c;
            && c in s.conns && c in s'.conns && s'.conns[c] == s.conns[c].(index := KNew)
            && s.conns[c].loop == l && C.Rank(s.conns[c].state) >= 2 && !Closing(s.loops[l], c)
  {
    assert LoopOk(s.conns, l, s.loops[l]);
    assert DoDetach in s.loops[l].frame.ops;
    DetachDone(s, l, read, wr);
  }

  lemma DetachedAccount(s: System, s': System, c: ConnId)
    requires Placed(s) && Placed(s') && c in s.conns && Account(s, c) && |s'.loops| == |s.loops|
    requires c in s'.conns && s'.conns[c] == s.conns[c].(index := KNew) && C.Rank(s.conns[c].state) >= 2
    requires s'.connections == s.connections && !Closing(s.loops[s.conns[c].loop], c)
    requires forall m :: 0 <= m < |s.loops| ==> Rest(s'.loops[m]) == Rest(s.loops[m])
    requires var l := s.conns[c].loop; DetachCount(s.loops[l].frame, c) == DetachCount(s'.loops[l].frame, c) + 1
    ensures Account(s', c)
  {}

  lemma DetachLoops(s: System, l: nat, read: ReadAnswer, wr: WriteResult)
    requires Placed(s) && Enabled(s, RunOp(l, read, wr)) && s.loops[l].frame.ops[0] == DoDetach
    ensures var s', c := DoRunOp(s, l, read, wr), s.loops[l].frame.c;
            && s'.connections == s.connections && |s'.loops| == |s.loops|
            && (forall m :: 0 <= m < |s.loops| ==> s'.loops[m].pos <= |s'.loops[m].batch| && Rest(s'.loops[m]) == Rest(s.loops[m]))
            && DetachCount(s.loops[l].frame, c) == DetachCount(s'.loops[l].frame, c) + 1
  {
    var c, ops := s.loops[l].frame.c, s.loops[l].frame.ops;
    NoPostsAppended(s, c, C.Detach);
    assert DoRunOp(s, l, read, wr).loops == SetFrame(s, l, Frame(c, ops[1..])).loops;
    assert ops == [ops[0]] + ops[1..];
  }

  lemma RemovedAccount(s: System, l: nat, wr: WriteResult)
    requires Inv(s) && Enabled(s, RunTask(l, wr)) && s.loops[l].batch[s.loops[l].pos].RemoveInLoop?
    requires Placed(DoRunTask(s, l, wr))
    ensures var s', c := DoRunTask(s, l, wr), s.loops[l].batch[s.loops[l].pos].c;
            && c in s.conns && s'.conns == s.conns && s.conns[c].state == C.kDisconnected && Account(s', c)
            && Destroyed(c) in Rest(s'.loops[s.conns[c].loop])
  {
    var s', c := DoRunTask(s, l, wr), s.loops[l].batch[s.loops[l].pos].c;
    RestPopped(s.loops[l]);
    assert LoopOk(s.conns, l, s.loops[l]) && TaskOk(s.conns, l, RemoveInLoop(c));
    FunctorMoves(s, l, wr);
    NowQueued(s, s', FunctorMove(s, l, wr), Destroyed(c));
  }

  /** The server's destructor trades its entry for one destruction. */
  lemma DestroyServerDue(s: System, c: ConnId)
    requires Inv(s) && Enabled(s, DestroyServer(c)) && Placed(Do(s, DestroyServer(c)))
    ensures var s' := Do(s, DestroyServer(c));
            && c in s'.conns && s'.conns[c].loop == s.conns[c].loop
            && Due(s', c) == Due(s, c) && c !in s'.connections
  {
    PlaceKept(s, DestroyServer(c), c);
    if s.conns[c].loop == 0 {
      DestroyedAtOnce(s, c);
    } else {
      DestroyedLater(s, c);
    }
  }

  lemma GoingAfter(lp: Loop, lp': Loop, fs: seq<Task>, fr: Frame, c: ConnId)
    requires lp.pos <= |lp.batch| && Fits(lp, lp', false, fs, fr)
    ensures Going(lp', c) == multiset(Rest(lp))[Destroyed(c)] + multiset(fs)[Destroyed(c)] + DetachCount(fr, c)
  {
    FitsRest(lp, lp', false, fs, fr);
  }

  lemma DestroyedAtOnce(s: System, c: ConnId)
    requires Placed(s) && Enabled(s, DestroyServer(c)) && s.conns[c].loop == 0
    ensures var s' := Do(s, DestroyServer(c));
            |s'.loops| > 0 && s'.loops[0].pos <= |s'.loops[0].batch|
            && Going(s'.loops[0], c) == Going(s.loops[0], c) + 1 && c !in s'.connections
  {
    var s', mv := Do(s, DestroyServer(c)), MoveOf(s, DestroyServer(c));
    DestroyServerMoves(s, c);
    assert Moves(s, s', mv, 0);
    OneDetach(s.loops[0], s'.loops[0], s.conns[c], c, mv.fs);
  }

  lemma OneDetach(lp: Loop, lp': Loop, k: C.Conn, c: ConnId, fs: seq<Task>)
    requires lp.pos <= |lp.batch| && Fits(lp, lp', false, fs, Frame(c, DestroyOps(k))) && !lp.frame.Frame?
    requires fs == Posts(k, c, C.Destroy)
    ensures Going(lp', c) == Going(lp, c) + 1
  {
    GoingAfter(lp, lp', fs, Frame(c, DestroyOps(k)), c);
    PostsAreNotices(k, c, C.Destroy);
    assert Destroyed(c) !in fs;
    DestroyOpsCount(k);
  }

  lemma DestroyedLater(s: System, c: ConnId)
    requires Placed(s) && Enabled(s, DestroyServer(c)) && s.conns[c].loop != 0
    ensures var s', l := Do(s, DestroyServer(c)), s.conns[c].loop;
            |s'.loops| == |s.loops| && s'.loops[l].pos <= |s'.loops[l].batch|
            && Going(s'.loops[l], c) == Going(s.loops[l], c) + 1 && c !in s'.connections
  {
    var s', l := Do(s, DestroyServer(c)), s.conns[c].loop;
    DestroyServerMoves(s, c);
    assert Moves(s, s', MoveOf(s, DestroyServer(c)), l);
    GoingAfter(s.loops[l], s'.loops[l], [Destroyed(c)], s.loops[l].frame, c);
  }

  lemma DestroyServerAccount(s: System, c: ConnId)
    requires Inv(s) && Enabled(s, DestroyServer(c)) && Placed(Do(s, DestroyServer(c))) && Account(s, c)
    ensures c in Do(s, DestroyServer(c)).conns && Account(Do(s, DestroyServer(c)), c)
  {
    DestroyServerDue(s, c);
    DestroyServerConn(s, c);
    UnlistedAccount(s, Do(s, DestroyServer(c)), c);
  }

  lemma DestroyServerConn(s: System, c: ConnId)
    requires Inv(s) && Enabled(s, DestroyServer(c)) && c in Do(s, DestroyServer(c)).conns
    ensures var k' := Do(s, DestroyServer(c)).conns[c];
            k' == s.conns[c] || (s.conns[c].state == C.kConnected && k'.state == C.kDisconnected)
  {
    StepPerforms(s, DestroyServer(c), c);
    DestroyEffect(s.conns[c], OpsOn(s, DestroyServer(c), c), Do(s, DestroyServer(c)).conns[c]);
  }

  lemma DestroyEffect(k: C.Conn, ops: seq<C.Op>, k': C.Conn)
    requires Performed(k, ops, k') && (ops == [] || ops == [C.Destroy])
    ensures k' == k || (k.state == C.kConnected && k'.state == C.kDisconnected)
  {}

  lemma UnlistedAccount(s: System, s': System, c: ConnId)
    requires Placed(s) && Placed(s') && c in s.conns && c in s'.conns && Account(s, c)
    requires c in s.connections && c !in s'.connections && Due(s', c) == Due(s, c)
    requires || s'.conns[c] == s.conns[c]
             || (s.conns[c].state == C.kConnected && s'.conns[c].state == C.kDisconnected)
    ensures Account(s', c)
  {}

  lemma HandOverAccount(s: System, a: Action, c: ConnId)
    requires Inv(s) && Enabled(s, a) && c in s.conns && HandsOver(s, a, c) && Account(s, c)
    requires Placed(Do(s, a))
    ensures c in Do(s, a).conns && Account(Do(s, a), c)
  {
    match a
    case RunOp(l, read, wr) =>
      if s.loops[l].frame.ops[0] == PostRemove {
        CallbackAccount(s, l, read, wr);
      } else {
        DetachAccount(s, l, read, wr);
      }
    case RunTask(l, wr) => RemovedAccount(s, l, wr);
    case DestroyServer(_) => DestroyServerAccount(s, c);
  }

  /** The step runs `connectEstablished` or `connectDestroyed` up to the removal. */
  ghost predicate Starts(s: System, a: Action, c: ConnId)
    requires Enabled(s, a)
  {
    a.RunTask? && s.loops[a.l].batch[s.loops[a.l].pos] in {Established(c), Destroyed(c)}
  }

  ghost predicate Shuts(s: System, a: Action, c: ConnId)
    requires Enabled(s, a)
  {
    a.RunOp? && s.loops[a.l].frame.c == c && s.loops[a.l].frame.ops[0] == Handle(CloseCallback)
  }

  /** Everything else a step does to a connection is traffic. */
  lemma ElseTraffic(s: System, a: Action, c: ConnId)
    requires Enabled(s, a) && c in s.conns && !HandsOver(s, a, c) && !Starts(s, a, c) && !Shuts(s, a, c)
    ensures forall op :: op in OpsOn(s, a, c) ==> C.IsTraffic(op)
  {}

  /** One step keeps the account of every connection. */
  lemma StepAccount(s: System, a: Action, c: ConnId)
    requires Inv(s) && Enabled(s, a) && c in s.conns && Account(s, c) && Placed(Do(s, a))
    ensures c in Do(s, a).conns && Account(Do(s, a), c)
  {
    if HandsOver(s, a, c) {
      HandOverAccount(s, a, c);
    } else if Shuts(s, a, c) {
      CloseAccount(s, a.l, a.read, a.wr);
    } else if Starts(s, a, c) {
      FunctorAccount(s, a.l, a.wr, c);
    } else {
      ElseTraffic(s, a, c);
      GentleAccount(s, a, c);
    }
  }

  /** A new connection is due for removal once, through its entry. */
  lemma NewAccount(s: System, a: Action)
    requires Inv(s) && Enabled(s, a) && a.Accept? && Placed(Do(s, a))
    ensures s.nextId in Do(s, a).conns && Account(Do(s, a), s.nextId)
  {
    var l := Place(|s.loops| - 1, s.nextId);
    PlaceFits(|s.loops| - 1, s.nextId);
    NoneGoing(s, l, s.nextId);
    StepSmooth(s, a, s.nextId);
    assert Smooth(s.loops[l], Do(s, a).loops[l], s.nextId);
    NewEntry(s, a);
  }

  lemma NoneGoing(s: System, l: nat, c: ConnId)
    requires Inv(s) && l < |s.loops| && c == s.nextId
    ensures Going(s.loops[l], c) == 0
  {
    NoneAbout(s, l, c);
    assert LoopOk(s.conns, l, s.loops[l]);
    assert Destroyed(c) !in Rest(s.loops[l]);
  }

  /** It is listed, and not yet closed. */
  ghost predicate Entry(s: System, c: ConnId, l: nat) {
    c in s.connections && c in s.conns && s.conns[c].loop == l && C.Rank(s.conns[c].state) <= 1
  }

  lemma QueuedEntry(s: System, l: nat, k: C.Conn, fs: seq<Task>)
    requires l < |s.loops| && k.loop == l && C.Rank(k.state) <= 1
    ensures Entry(Append(Entered(s, k), l, fs), s.nextId, l)
  {}

  lemma NewEntry(s: System, a: Action)
    requires Inv(s) && Enabled(s, a) && a.Accept?
    ensures Entry(Do(s, a), s.nextId, Place(|s.loops| - 1, s.nextId))
  {
    var l := Place(|s.loops| - 1, s.nextId);
    PlaceFits(|s.loops| - 1, s.nextId);
    if |s.loops| == 1 {
      DirectShape(s, a);
    } else {
      QueuedShape(s, a);
      QueuedEntry(s, l, NewConn(a.fd, l, a.mark, a.wc, a.hw), [Established(s.nextId)]);
    }
  }

  lemma StepAccounted(s: System, a: Action)
    requires Inv(s) && Accounted(s) && Enabled(s, a)
    ensures Accounted(Do(s, a))
  {
    StepKeeps(s, a);
    var s' := Do(s, a);
    forall c | c in s'.conns ensures Account(s', c) {
      if c in s.conns {
        StepAccount(s, a, c);
      } else {
        OnlyAcceptAdds(s, a, c);
        NewAccount(s, a);
      }
    }
  }
}
